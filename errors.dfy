/** Go's `error` values and the optional values (`nil` or not) that carry them. */
module Errors {

  /** `None` stands for Go's `nil`. */
  datatype Option<+T> = None | Some(value: T)

  /**
   * A Go `error`. Go compares errors by identity, so every error carries one:
   * `Error(id, text)` is a value made by `errors.New(text)`, told apart from
   * other such values by `id`; `Combined(first, second)` is the new error that
   * the task runner makes out of a `do` error and a `teardown` error. Being a
   * new value, it is never identical to either of the two it was made from.
   */
  datatype Error = Error(id: nat, text: string) | Combined(first: Error, second: Error)

  /** What the error's `Error()` method returns. */
  function Text(e: Error): string
  {
    match e
    case Error(_, t) => t
    case Combined(a, b) => Text(a) + Text(b)
  }

  /** A combined error is a new value, identical to neither error it was made from. */
  lemma {:induction false} CombinedIsNew(a: Error, b: Error)
    ensures Combined(a, b) != a && Combined(a, b) != b
  {
    NotFirst(a, b);
    NotSecond(a, b);
  }

  lemma {:induction false} NotFirst(a: Error, b: Error)
    ensures Combined(a, b) != a
    decreases a
  {
    if a.Combined? {
      NotFirst(a.first, b);
    }
  }

  lemma {:induction false} NotSecond(a: Error, b: Error)
    ensures Combined(a, b) != b
    decreases b
  {
    if b.Combined? {
      NotSecond(b.first, b.second);
    }
  }
}
