/** Outcomes of the modelled operations: the value computed, or the exception the Java code throws. */
module Results {

  /** A nullable Java reference: `None` stands for `null`. */
  datatype Option<+T> = None | Some(value: T)

  /**
   * The failures of the modelled code; the constructor records which guard raised it.
   * The first three are IllegalArgumentExceptions; the exception type of the last two,
   * raised inside the Order class, is not part of this model.
   */
  datatype Error =
    | NotFound                          // a lookup by id found nothing (exception without a message)
    | InvalidArgument(message: string)  // exception carrying the given message
    | NoEnumConstant(name: string)      // OrderStatus.valueOf was given a name that is no constant
    | MenuSizeRejected                  // raised by Order.validateMenuSize
    | StatusChangeRejected              // raised by Order.changeOrderStatus

  /** The result of an operation that either returns a value or throws. */
  datatype Result<+T> = Ok(value: T) | Err(error: Error)
}
