/** The records the engine reads and produces. */
module Customers {

  datatype Gender = Male | Female

  datatype SocialActivity = Low | Medium | High

  /** One row of the customer population (the keys of a customer dictionary). */
  datatype Customer = Customer(
    name: string,
    age: int,
    gender: Gender,
    interests: seq<string>,
    history: seq<string>,
    sentiment: real,
    engagement: real,
    social: SocialActivity)

  /**
   * The strategy label. The engine compares it only with "collaborative" and
   * "contextual"; every other label (the default "hybrid" among them) takes
   * the same branches, so `Hybrid` stands for all of them.
   */
  datatype Strategy = Collaborative | Contextual | Hybrid

  /** One entry of the returned list: product, score, reason and risk. */
  datatype Recommendation = Recommendation(product: string, score: real, reason: string, risk: real)

  datatype Option<T> = None | Some(value: T)

  datatype Result<T> = Success(value: T) | Failure(error: EngineError)

  /** Raised by the `[0]` index on the empty list of matching rows. */
  datatype EngineError = CustomerNotFound(name: string)
}
