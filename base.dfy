/** Vocabulary shared by the whole model: optional values, Rust's `Result`
    with the crate's single error variant, `Poll`, wakers, and the ways a
    call can end (a returned value or a panic in Rust, a returned value or a
    raised exception in OCaml). */
module Base {

  datatype Option<+T> = None | Some(value: T)

  /** `crate::error::Error`: its only variant carries the message of the
      exception the Lwt promise was rejected with. */
  datatype Error = LwtPromiseRejection(message: string)

  /** `Result<T, crate::error::Error>` */
  datatype Result<+T> = Ok(value: T) | Err(error: Error)

  /** `std::task::Poll` */
  datatype Poll<+T> = Pending | Ready(value: T)

  /** A `std::task::Waker`, known only by its identity. */
  datatype Waker = Waker(id: nat)

  /** How a Rust call ends: it returns a value, or it panics with a message
      (the panic unwinds to the caller). */
  datatype Outcome<+T> = Returned(value: T) | Panicked(message: string)

  /** How a call into OCaml ends: it returns a value, or the OCaml code
      raises an exception. */
  datatype Ffi<+T> = Answered(value: T) | Raised(exception: string)

  /** The one-element sequence of a present option, the empty one otherwise. */
  function OptionToSeq<T>(o: Option<T>): (s: seq<T>)
    ensures |s| <= 1
    ensures o.Some? <==> |s| == 1
    ensures o.Some? ==> s[0] == o.value
  {
    match o
    case None => []
    case Some(x) => [x]
  }
}
