/** Small shared vocabulary: optional values, results, the error shape that
    the UI inspects, JavaScript truthiness of strings, and a few sequence
    helpers used by several components. */
module Common {

  /** A value that may be absent (`undefined` or `null` in TypeScript). */
  datatype Option<+T> = None | Some(value: T)

  /** A computation that either produced a value or threw an error. */
  datatype Result<+T, +E> = Success(value: T) | Failure(error: E)

  /** The parts of a thrown JavaScript error the application looks at:
      an optional `code` property and its `message` (possibly empty). */
  datatype Error = Error(code: Option<string>, message: string)

  /** An error thrown with `new Error(msg)`: it carries no code. */
  function PlainError(msg: string): Error {
    Error(None, msg)
  }

  /** JavaScript truthiness of an optional string: `undefined` and the
      empty string are falsy, every other string is truthy. */
  predicate Truthy(s: Option<string>) {
    s.Some? && s.value != ""
  }

  function Max(a: real, b: real): real {
    if a >= b then a else b
  }

  function Min(a: real, b: real): real {
    if a <= b then a else b
  }

  /** `needle` occurs as a contiguous block of `hay`. */
  ghost predicate IsInfix<T>(needle: seq<T>, hay: seq<T>) {
    exists i :: InfixAt(needle, hay, i)
  }

  /** `needle` occurs in `hay` starting at position `i`. */
  ghost predicate InfixAt<T>(needle: seq<T>, hay: seq<T>, i: int) {
    0 <= i <= |hay| - |needle| && hay[i..i + |needle|] == needle
  }

  /** `a + needle + b` contains `needle`, the witness being `|a|`. */
  lemma InfixOfConcat<T>(a: seq<T>, needle: seq<T>, b: seq<T>)
    ensures IsInfix(needle, a + needle + b)
  {
    var hay := a + needle + b;
    assert hay[|a|..|a| + |needle|] == needle;
    assert InfixAt(needle, hay, |a|);
  }

  /** A template `head + x + middle + y + tail` contains both inserted
      fields and starts with its head. */
  lemma TemplateMeaning<T>(head: seq<T>, x: seq<T>, middle: seq<T>, y: seq<T>, tail: seq<T>)
    ensures IsInfix(x, head + x + middle + y + tail)
    ensures IsInfix(y, head + x + middle + y + tail)
    ensures IsPrefix(head, head + x + middle + y + tail)
  {
    var s := head + x + middle + y + tail;
    assert s == head + x + (middle + y + tail);
    InfixOfConcat(head, x, middle + y + tail);
    assert s == (head + x + middle) + y + tail;
    InfixOfConcat(head + x + middle, y, tail);
    assert s[..|head|] == head;
  }

  /** `x` is a prefix of `s`. */
  predicate IsPrefix<T(==)>(x: seq<T>, s: seq<T>) {
    |x| <= |s| && s[..|x|] == x
  }

  /** `x` is a suffix of `s`. */
  predicate IsSuffix<T(==)>(x: seq<T>, s: seq<T>) {
    |x| <= |s| && s[|s| - |x|..] == x
  }

  /** Elements of a sequence are pairwise distinct. */
  predicate Distinct<T(==)>(s: seq<T>) {
    forall i, j :: 0 <= i < j < |s| ==> s[i] != s[j]
  }
}
