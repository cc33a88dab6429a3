/**
 * The two string operations the registry client relies on: lower-casing an HTTP
 * method name (`String.prototype.toLowerCase`, ASCII letters only) and splitting a
 * composite competition id on a separator (`String.prototype.split` with a
 * one-character separator).
 */
module Text {

  function LowerChar(c: char): (r: char)
    ensures 'A' <= c <= 'Z' ==> 'a' <= r <= 'z' && r as int == c as int + 32
    ensures !('A' <= c <= 'Z') ==> r == c
  {
    if 'A' <= c <= 'Z' then (c as int + 32) as char else c
  }

  /** ASCII lower-casing, character by character. */
  function Lower(s: string): (r: string)
  {
    seq(|s|, i requires 0 <= i < |s| => LowerChar(s[i]))
  }

  /** `m.toLowerCase() === "get"` holds exactly for the eight spellings of GET. */
  lemma LowerIsGet(m: string)
    ensures Lower(m) == "get" <==>
      |m| == 3 && m[0] in {'g', 'G'} && m[1] in {'e', 'E'} && m[2] in {'t', 'T'}
  {
    if Lower(m) == "get" {
      assert |m| == 3;
      assert Lower(m)[0] == LowerChar(m[0]) == 'g';
      assert Lower(m)[1] == LowerChar(m[1]) == 'e';
      assert Lower(m)[2] == LowerChar(m[2]) == 't';
    }
  }

  /** The two spellings of GET the model uses both lower-case to "get". */
  lemma LowerOfGet()
    ensures Lower("get") == "get" && Lower("GET") == "get"
  {
    LowerIsGet("get");
    LowerIsGet("GET");
  }

  /**
   * `s.split(sep)` for a one-character separator: the maximal runs of characters
   * between separators, in order. The empty string splits into one empty piece and
   * a trailing separator yields a trailing empty piece.
   */
  function Split(s: string, sep: char): (parts: seq<string>)
    ensures |parts| >= 1
    decreases |s|
  {
    if |s| == 0 then [""]
    else
      var rest := Split(s[1..], sep);
      if s[0] == sep then [""] + rest
      else [[s[0]] + rest[0]] + rest[1..]
  }

  /** `parts.join(sep)`. */
  function Join(parts: seq<string>, sep: char): (s: string)
    decreases |parts|
  {
    if |parts| == 0 then ""
    else if |parts| == 1 then parts[0]
    else parts[0] + [sep] + Join(parts[1..], sep)
  }

  /** No piece of a split contains the separator. */
  lemma {:induction false} SplitPiecesAreSeparatorFree(s: string, sep: char)
    ensures forall i :: 0 <= i < |Split(s, sep)| ==> sep !in Split(s, sep)[i]
    decreases |s|
  {
    if |s| > 0 {
      SplitPiecesAreSeparatorFree(s[1..], sep);
      var rest := Split(s[1..], sep);
      if s[0] != sep {
        assert sep !in rest[0];
        assert sep !in [s[0]] + rest[0];
      }
    }
  }

  /** Joining after an empty first piece starts with the separator. */
  lemma JoinAfterEmpty(parts: seq<string>, sep: char)
    requires |parts| >= 1
    ensures Join([""] + parts, sep) == [sep] + Join(parts, sep)
  {
    var all := [""] + parts;
    assert all[0] == "" && all[1..] == parts;
  }

  /** Joining after a character is put in front of the first piece puts it in front of the join. */
  lemma JoinPrepend(c: char, parts: seq<string>, sep: char)
    requires |parts| >= 1
    ensures Join([[c] + parts[0]] + parts[1..], sep) == [c] + Join(parts, sep)
  {
    var all := [[c] + parts[0]] + parts[1..];
    assert all[0] == [c] + parts[0] && all[1..] == parts[1..];
    if |parts| > 1 {
      assert Join(all, sep) == [c] + parts[0] + [sep] + Join(parts[1..], sep);
    }
  }

  /** Joining the pieces of a split with the same separator gives back the string. */
  lemma {:induction false} JoinSplit(s: string, sep: char)
    ensures Join(Split(s, sep), sep) == s
    decreases |s|
  {
    if |s| > 0 {
      JoinSplit(s[1..], sep);
      var rest := Split(s[1..], sep);
      if s[0] == sep {
        JoinAfterEmpty(rest, sep);
      } else {
        JoinPrepend(s[0], rest, sep);
      }
      assert [s[0]] + s[1..] == s;
    }
  }

  /** A string without the separator splits into itself alone. */
  lemma {:induction false} SplitWithoutSeparator(s: string, sep: char)
    requires sep !in s
    ensures Split(s, sep) == [s]
    decreases |s|
  {
    if |s| > 0 {
      assert s[1..] == s[1..];
      assert sep !in s[1..] by {
        forall i | 0 <= i < |s[1..]| ensures s[1..][i] != sep { assert s[1..][i] == s[i + 1]; }
      }
      SplitWithoutSeparator(s[1..], sep);
      assert s == [s[0]] + s[1..];
    }
  }

  /** A separator-free head and any tail: the head is the first piece, the tail splits on. */
  lemma {:induction false} SplitAfterHead(a: string, sep: char, b: string)
    requires sep !in a
    ensures Split(a + [sep] + b, sep) == [a] + Split(b, sep)
    decreases |a|
  {
    var s := a + [sep] + b;
    if |a| == 0 {
      assert s == [sep] + b;
      assert s[1..] == b;
    } else {
      var a' := a[1..];
      assert sep !in a' by {
        forall i | 0 <= i < |a'| ensures a'[i] != sep { assert a'[i] == a[i + 1]; }
      }
      SplitAfterHead(a', sep, b);
      assert s[1..] == a' + [sep] + b;
      assert s[0] == a[0] && a[0] != sep;
      var rest := Split(s[1..], sep);
      assert rest == [a'] + Split(b, sep);
      assert [a[0]] + a' == a;
      assert rest[1..] == Split(b, sep);
    }
  }

  /** Equal strings with a common prefix are equal after it. */
  lemma PrefixCancel(p: string, a: string, b: string)
    requires p + a == p + b
    ensures a == b
  {
    assert a == (p + a)[|p|..];
    assert b == (p + b)[|p|..];
  }
}
