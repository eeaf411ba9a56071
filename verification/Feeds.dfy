/** The values that travel between the parts of the program. */
module Feeds {
  datatype Option<+T> = None | Some(value: T)

  /** A feed's configuration: its URL, its poll interval and everything else. */
  datatype Feed = Feed(url: string, interval: int, settings: nat)

  datatype Kind = New | Updated

  /** A detected change; the last two fields are set only on the envelope for a dead-letter sink. */
  datatype Change = Change(feed: string, id: string, kind: Kind, hash: string, published: int, detectedAt: int,
                           dlqFrom: string, dlqAttempts: nat)
}
