/**
 * `String.prototype.split` and `Array.prototype.join` for a one-character
 * separator, as the relay uses them on its comma-separated recipient list.
 * No trimming is done: `"a, b".split(",")` keeps the blank in `" b"`.
 */
module JsString {
  import opened Wrappers

  /** JavaScript truthiness of a string that may be `undefined`: defined, and not the empty string. */
  predicate Truthy(v: Option<string>)
  {
    v.Some? && v.value != ""
  }

  /** `s.includes(x)`: `x` occurs in `s` as a contiguous run of characters. */
  predicate Includes(s: string, x: string)
  {
    exists k :: 0 <= k <= |s| && x <= s[k..]
  }

  /** An occurrence inside `b` is an occurrence inside `a + b + c`. */
  lemma IncludesInside(a: string, b: string, c: string, x: string)
    requires Includes(b, x)
    ensures Includes(a + b + c, x)
  {
    var k :| 0 <= k <= |b| && x <= b[k..];
    assert (a + b + c)[|a| + k..] == b[k..] + c;
  }

  /** Number of occurrences of `c` in `s`. */
  function Count(s: string, c: char): nat
  {
    if s == [] then 0 else (if s[0] == c then 1 else 0) + Count(s[1..], c)
  }

  /** `s.split(sep)`: the maximal separator-free runs of `s`, in order; empty runs kept. */
  function Split(s: string, sep: char): (parts: seq<string>)
    ensures |parts| >= 1
    ensures forall i :: 0 <= i < |parts| ==> sep !in parts[i]
  {
    if s == [] then [""]
    else
      var rest := Split(s[1..], sep);
      if s[0] == sep then [""] + rest
      else [[s[0]] + rest[0]] + rest[1..]
  }

  /**
   * `parts.join(sep)`: the parts with one separator between neighbours. When
   * no part contains the separator, splitting the result gives the parts back,
   * so one string carries the whole list.
   */
  function Join(parts: seq<string>, sep: char): (r: string)
    ensures |parts| >= 1 && (forall i :: 0 <= i < |parts| ==> sep !in parts[i]) ==> Split(r, sep) == parts
  {
    if parts == [] then ""
    else if |parts| == 1 then
      assert sep !in parts[0] ==> Split(parts[0], sep) == [parts[0]] by {
        if sep !in parts[0] { SplitFree(parts[0], sep); }
      }
      parts[0]
    else
      var rest := Join(parts[1..], sep);
      var tail := [sep] + rest;
      assert (forall i :: 0 <= i < |parts| ==> sep !in parts[i]) ==> Split(parts[0] + tail, sep) == parts by {
        if forall i :: 0 <= i < |parts| ==> sep !in parts[i] {
          assert forall i :: 0 <= i < |parts[1..]| ==> sep !in parts[1..][i];
          SplitPrefix(parts[0], tail, sep);
          assert tail[1..] == rest;
          assert Split(tail, sep) == [""] + parts[1..];
          assert parts[0] + "" == parts[0];
          assert parts == [parts[0]] + parts[1..];
        }
      }
      assert parts[0] + [sep] + rest == parts[0] + tail;
      parts[0] + [sep] + rest
  }

  /** Joining a part in front of at least one more puts one separator between them. */
  lemma JoinCons(head: string, rest: seq<string>, sep: char)
    requires |rest| >= 1
    ensures Join([head] + rest, sep) == head + [sep] + Join(rest, sep)
  {
    assert ([head] + rest)[1..] == rest;
  }

  /** Joining back what was split gives the original string, character for character. */
  lemma {:induction false} JoinSplit(s: string, sep: char)
    ensures Join(Split(s, sep), sep) == s
  {
    if s != [] {
      var rest := Split(s[1..], sep);
      JoinSplit(s[1..], sep);
      if s[0] == sep {
        assert Split(s, sep) == [""] + rest;
        JoinCons("", rest, sep);
        assert [sep] + s[1..] == s;
      } else {
        var head := [s[0]] + rest[0];
        assert Split(s, sep) == [head] + rest[1..];
        if |rest| == 1 {
          assert Join([head], sep) == head;
        } else {
          assert rest == [rest[0]] + rest[1..];
          JoinCons(rest[0], rest[1..], sep);
          JoinCons(head, rest[1..], sep);
        }
        assert [s[0]] + s[1..] == s;
      }
    }
  }

  /** Splitting yields one more part than there are separators. */
  lemma {:induction false} SplitCount(s: string, sep: char)
    ensures |Split(s, sep)| == Count(s, sep) + 1
  {
    if s != [] {
      SplitCount(s[1..], sep);
    }
  }

  /** A string without separators splits into itself. */
  lemma {:induction false} SplitFree(s: string, sep: char)
    requires sep !in s
    ensures Split(s, sep) == [s]
  {
    if s != [] {
      SplitFree(s[1..], sep);
      assert [s[0]] + s[1..] == s;
    }
  }

  /** A separator-free prefix glues onto the first part of what follows it. */
  lemma {:induction false} SplitPrefix(p: string, t: string, sep: char)
    requires sep !in p
    ensures Split(p + t, sep) == [p + Split(t, sep)[0]] + Split(t, sep)[1..]
  {
    if p != [] {
      SplitPrefix(p[1..], t, sep);
      assert (p + t)[1..] == p[1..] + t;
      assert [p[0]] + (p[1..] + Split(t, sep)[0]) == p + Split(t, sep)[0];
    } else {
      assert p + t == t;
      assert p + Split(t, sep)[0] == Split(t, sep)[0];
      assert Split(t, sep) == [Split(t, sep)[0]] + Split(t, sep)[1..];
    }
  }
}
