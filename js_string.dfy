/**
 * The few JavaScript string operations the blog uses: `s.startsWith(prefix)`
 * and `s.split(sep)` with a one-character separator, together with the
 * joining operation that undoes a split.
 */
module JsString {

  /** `s.startsWith(prefix)`, searching from position 0. */
  function StartsWith(s: string, prefix: string): (b: bool)
    ensures b <==> |prefix| <= |s| && s == prefix + s[|prefix|..]
  {
    |prefix| <= |s| && s[..|prefix|] == prefix
  }

  /** Any string starts with its own prefixes. */
  lemma StartsWithConcat(prefix: string, rest: string)
    ensures StartsWith(prefix + rest, prefix)
  {
    assert (prefix + rest)[..|prefix|] == prefix;
  }

  /**
   * `parts.join(sep)` for a one-character separator. The blog never joins;
   * this is the reference that `Split` is proved to invert.
   */
  function Join(parts: seq<string>, sep: char): string
  {
    if |parts| == 0 then ""
    else if |parts| == 1 then parts[0]
    else parts[0] + [sep] + Join(parts[1..], sep)
  }

  /**
   * `s.split(sep)` for a one-character separator: the maximal pieces of `s`
   * between occurrences of `sep`, in order, empty pieces included. Splitting
   * the empty string gives one empty piece.
   */
  function Split(s: string, sep: char): (parts: seq<string>)
    ensures |parts| >= 1
    ensures forall i :: 0 <= i < |parts| ==> sep !in parts[i]
    ensures Join(parts, sep) == s
  {
    if s == [] then [""]
    else
      var rest := Split(s[1..], sep);
      if s[0] == sep then
        assert [s[0]] + s[1..] == s;
        [""] + rest
      else
        var parts := [[s[0]] + rest[0]] + rest[1..];
        assert parts[1..] == rest[1..];
        assert forall i :: 1 <= i < |parts| ==> parts[i] == rest[i];
        parts
  }

  /** Splitting a join of separator-free pieces gives the pieces back. */
  lemma {:induction false} SplitJoin(parts: seq<string>, sep: char)
    requires |parts| >= 1
    requires forall i :: 0 <= i < |parts| ==> sep !in parts[i]
    ensures Split(Join(parts, sep), sep) == parts
    decreases |Join(parts, sep)|
  {
    var s := Join(parts, sep);
    if parts[0] == [] {
      if |parts| > 1 {
        assert s == [sep] + Join(parts[1..], sep);
        assert s[1..] == Join(parts[1..], sep);
        SplitJoin(parts[1..], sep);
        assert parts == [""] + parts[1..];
      }
    } else {
      var c := parts[0][0];
      assert c != sep;
      var parts' := [parts[0][1..]] + parts[1..];
      assert parts'[1..] == parts[1..];
      if |parts| == 1 {
        assert s[1..] == Join(parts', sep);
      } else {
        assert s == [c] + (parts[0][1..] + [sep] + Join(parts[1..], sep));
        assert s[1..] == Join(parts', sep);
      }
      SplitJoin(parts', sep);
      assert [c] + parts[0][1..] == parts[0];
      assert [[c] + parts'[0]] + parts'[1..] == parts;
    }
  }

  /** Reference definition: the characters of `s` before the first `sep`. */
  function TakeUntil(s: string, sep: char): string
  {
    if s == [] || s[0] == sep then "" else [s[0]] + TakeUntil(s[1..], sep)
  }

  /** The first piece of a split is the text before the first separator. */
  lemma {:induction false} SplitHeadIsTakeUntil(s: string, sep: char)
    ensures Split(s, sep)[0] == TakeUntil(s, sep)
  {
    if s != [] && s[0] != sep {
      SplitHeadIsTakeUntil(s[1..], sep);
    }
  }
}
