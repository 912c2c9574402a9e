/** Failure-carrying wrappers and the exceptions the helper can raise or let through. */
module Base {

  datatype Option<+T> = None | Some(value: T)

  datatype Result<+R> = Success(value: R) | Failure(error: Error)

  /** The exceptions that surface to a caller of the helper. */
  datatype Error =
    | InvalidOperation(message: string)  // InvalidOperationException
    | ArgumentNull(paramName: string)    // ArgumentNullException
    | DuplicateKey(key: string)          // ArgumentException from ToDictionary
    | Cancelled                          // OperationCanceledException from a cancelled token
    | DriverError(code: int)             // any exception of the database driver
    | HandlerError(code: int)            // any exception raised by a caller's result handler

  /** Message of the guard in every parameter-binding overload. */
  const LoadStoredProcFirst: string := "Call LoadStoredProc before using this method"

  /** The driver's refusal to execute a command over a connection that is not open. */
  const ConnectionNotOpen: Error := InvalidOperation("ExecuteReader requires an open and available Connection")

  /** Concatenation of a sequence of sequences, in order. */
  function Flatten<T>(ss: seq<seq<T>>): seq<T>
  {
    if ss == [] then [] else ss[0] + Flatten(ss[1..])
  }

  /** Growing a prefix by one element, and a prefix followed by the rest. */
  lemma PrefixSnoc<T>(s: seq<T>, i: nat)
    requires i < |s|
    ensures s[..i + 1] == s[..i] + [s[i]] && s[..i + 1] + s[i + 1..] == s
  {
  }

  lemma AppendAssoc<T>(a: seq<T>, b: seq<T>, c: seq<T>)
    ensures a + (b + c) == (a + b) + c
  {
  }
}
