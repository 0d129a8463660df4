/** The pieces of JavaScript value semantics the handlers rely on: values that may be
    `undefined`, truthiness, and `String.prototype.startsWith` / `split` / `Array.prototype.join`. */
module Js {

  /** A value that may be `undefined` (or `null`). */
  datatype Option<+T> = None | Some(value: T)

  /** A computation that either yields a value or stops with an error. */
  datatype Result<+T, +E> = Ok(value: T) | Err(error: E)

  /** Truthiness of a possibly missing string: `undefined` and "" are falsy. */
  predicate Truthy(s: Option<string>) {
    s.Some? && s.value != ""
  }

  /** Truthiness of a possibly missing number: `undefined` and 0 are falsy. */
  predicate TruthyCode(c: Option<int>) {
    c.Some? && c.value != 0
  }

  /** `s.startsWith(p)` */
  predicate StartsWith(s: string, p: string) {
    |p| <= |s| && s[..|p|] == p
  }

  /** `s.split(sep)` for a one-character separator: the runs of text between separators,
      in order, empty runs included (so "" splits into [""]). */
  function Split(s: string, sep: char): (fields: seq<string>)
    ensures |fields| >= 1
    ensures forall i :: 0 <= i < |fields| ==> sep !in fields[i]
    // the first field is the longest separator-free prefix of s
    ensures fields[0] <= s && (|fields[0]| == |s| || s[|fields[0]|] == sep)
    decreases |s|
  {
    if s == [] then [""]
    else
      var rest := Split(s[1..], sep);
      if s[0] == sep then [""] + rest
      else [[s[0]] + rest[0]] + rest[1..]
  }

  /** `fields.join(sep)` */
  function Join(fields: seq<string>, sep: char): string
    decreases |fields|
  {
    if |fields| == 0 then ""
    else if |fields| == 1 then fields[0]
    else fields[0] + [sep] + Join(fields[1..], sep)
  }

  /** Splitting loses nothing: joining the fields with the separator gives back the string. */
  lemma {:induction false} JoinSplit(s: string, sep: char)
    ensures Join(Split(s, sep), sep) == s
    decreases |s|
  {
    if s != [] {
      var rest := Split(s[1..], sep);
      JoinSplit(s[1..], sep);
      if s[0] == sep {
        assert ([""] + rest)[1..] == rest;
        assert s == [sep] + s[1..];
      } else {
        var fields := [[s[0]] + rest[0]] + rest[1..];
        if |rest| == 1 {
          assert s == [s[0]] + s[1..];
        } else {
          assert fields[1..] == rest[1..];
          assert Join(rest, sep) == rest[0] + [sep] + Join(rest[1..], sep);
          assert Join(fields, sep) == [s[0]] + (rest[0] + [sep] + Join(rest[1..], sep));
          assert s == [s[0]] + s[1..];
        }
      }
    }
  }

  /** A separator-free word followed by the separator contributes exactly one field. */
  lemma {:induction false} SplitAfterWord(w: string, sep: char, rest: string)
    requires sep !in w
    ensures Split(w + [sep] + rest, sep) == [w] + Split(rest, sep)
    decreases |w|
  {
    var s := w + [sep] + rest;
    if w == [] {
      assert s == [sep] + rest;
      assert s[1..] == rest;
    } else {
      assert s[0] == w[0] && s[0] != sep;
      assert s[1..] == w[1..] + [sep] + rest;
      SplitAfterWord(w[1..], sep, rest);
      assert [s[0]] + w[1..] == w;
    }
  }
}
