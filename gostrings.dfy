/** The parts of Go's `strings` package the program relies on. A Go string
    is a sequence of bytes; here each `char` stands for one byte. */
module GoStrings {

  /** The single-byte white space `strings.Fields` and `strings.TrimSpace`
      skip. Those functions also skip the multi-byte UTF-8 encodings of
      Unicode white space (U+0085, U+00A0, U+2000 to U+200A and others),
      which this byte-level predicate does not recognise. */
  predicate IsSpace(c: char)
  {
    c == ' ' || c == '\t' || c == '\n' || c == '\r' || c == '\U{000B}' || c == '\U{000C}'
  }

  predicate AllSpace(s: string)
  {
    forall i :: 0 <= i < |s| ==> IsSpace(s[i])
  }

  predicate NoSpace(s: string)
  {
    forall i :: 0 <= i < |s| ==> !IsSpace(s[i])
  }

  // ---------------------------------------------------------------------
  // strings.TrimSpace

  function TrimLeft(s: string): (t: string)
    ensures |t| <= |s| && t == s[|s| - |t|..]
    ensures t == [] || !IsSpace(t[0])
    ensures AllSpace(s[..|s| - |t|])
  {
    if |s| > 0 && IsSpace(s[0]) then
      var t := TrimLeft(s[1..]);
      assert s[1..][..|s[1..]| - |t|] == s[1..|s| - |t|];
      t
    else s
  }

  function TrimRight(s: string): (t: string)
    ensures |t| <= |s| && t == s[..|t|]
    ensures t == [] || !IsSpace(t[|t| - 1])
    ensures AllSpace(s[|t|..])
  {
    if |s| > 0 && IsSpace(s[|s| - 1]) then
      var t := TrimRight(s[..|s| - 1]);
      assert s[..|s| - 1][|t|..] + [s[|s| - 1]] == s[|t|..];
      t
    else s
  }

  /** `strings.TrimSpace`: `s` without its leading and trailing white space. */
  function TrimSpace(s: string): string
  {
    TrimRight(TrimLeft(s))
  }

  /** The trimmed text is empty exactly when the input is all white space,
      and otherwise starts and ends with a character that is not white space. */
  lemma TrimSpaceEmpty(s: string)
    ensures TrimSpace(s) == [] <==> AllSpace(s)
    ensures TrimSpace(s) != [] ==> !IsSpace(TrimSpace(s)[0]) && !IsSpace(TrimSpace(s)[|TrimSpace(s)| - 1])
  {
    var l := TrimLeft(s);
    if TrimSpace(s) == [] {
      assert AllSpace(l[0..]);
      assert s == s[..|s| - |l|] + l;
    }
  }

  // ---------------------------------------------------------------------
  // strings.Split and strings.Join with a one-byte separator

  /** `strings.Split(s, string(sep))`: always at least one part. */
  function Split(s: string, sep: char): (parts: seq<string>)
    ensures |parts| >= 1
    decreases |s|
  {
    if |s| == 0 then [""]
    else
      var rest := Split(s[1..], sep);
      if s[0] == sep then [""] + rest
      else [[s[0]] + rest[0]] + rest[1..]
  }

  /** `strings.Join(parts, string(sep))`. */
  function Join(parts: seq<string>, sep: char): string
  {
    if |parts| == 0 then ""
    else if |parts| == 1 then parts[0]
    else parts[0] + [sep] + Join(parts[1..], sep)
  }

  lemma {:induction false} JoinSnoc(parts: seq<string>, last: string, sep: char)
    requires |parts| >= 1
    ensures Join(parts + [last], sep) == Join(parts, sep) + [sep] + last
  {
    if |parts| == 1 {
      assert parts + [last] == [parts[0], last];
      assert [parts[0], last][1..] == [last];
    } else {
      assert (parts + [last])[1..] == parts[1..] + [last];
      JoinSnoc(parts[1..], last, sep);
    }
  }

  /** Joining the parts of a split gives back the text. */
  lemma {:induction false} JoinSplit(s: string, sep: char)
    ensures Join(Split(s, sep), sep) == s
    decreases |s|
  {
    if |s| > 0 {
      var rest := Split(s[1..], sep);
      JoinSplit(s[1..], sep);
      if s[0] == sep {
        assert ([""] + rest)[1..] == rest;
        assert s == [s[0]] + s[1..];
      } else if |rest| == 1 {
        assert s == [s[0]] + s[1..];
      } else {
        var parts := [[s[0]] + rest[0]] + rest[1..];
        assert parts[1..] == rest[1..];
        assert Join(rest, sep) == rest[0] + [sep] + Join(rest[1..], sep);
        assert s == [s[0]] + s[1..];
      }
    }
  }

  /** No part of a split holds the separator. */
  lemma {:induction false} SplitPartsLackSep(s: string, sep: char)
    ensures forall k :: 0 <= k < |Split(s, sep)| ==> sep !in Split(s, sep)[k]
    decreases |s|
  {
    if |s| > 0 {
      SplitPartsLackSep(s[1..], sep);
    }
  }

  lemma {:induction false} SplitWithoutSep(b: string, sep: char)
    requires sep !in b
    ensures Split(b, sep) == [b]
    decreases |b|
  {
    if |b| > 0 {
      SplitWithoutSep(b[1..], sep);
      assert b == [b[0]] + b[1..];
    }
  }

  /** Appending text without the separator extends the last part. */
  lemma {:induction false} SplitAppend(a: string, b: string, sep: char)
    requires sep !in b
    ensures var p := Split(a, sep);
            Split(a + b, sep) == p[..|p| - 1] + [p[|p| - 1] + b]
    decreases |a|
  {
    if |a| == 0 {
      assert a + b == b;
      SplitWithoutSep(b, sep);
    } else {
      var c := a + b;
      assert c[1..] == a[1..] + b;
      assert c[0] == a[0];
      SplitAppend(a[1..], b, sep);
      SplitCons(c, sep);
      SplitCons(a, sep);
      var q := Split(a[1..], sep);
      if a[0] == sep {
        ExtendLastAfterEmpty(q, b);
      } else {
        ExtendLastPart(a[0], q, b);
      }
    }
  }

  /** Extending the last of `[""] + q` extends the last of `q`. */
  lemma ExtendLastAfterEmpty(q: seq<string>, b: string)
    requires |q| >= 1
    ensures var p := [""] + q;
            [""] + (q[..|q| - 1] + [q[|q| - 1] + b]) == p[..|p| - 1] + [p[|p| - 1] + b]
  {
    var p := [""] + q;
    assert p[..|p| - 1] == [""] + q[..|q| - 1];
  }

  /** With a character in front of the first part, extending the last part
      commutes with the splitting step. */
  lemma ExtendLastPart(x: char, q: seq<string>, b: string)
    requires |q| >= 1
    ensures var r := q[..|q| - 1] + [q[|q| - 1] + b];
            var p := [[x] + q[0]] + q[1..];
            [[x] + r[0]] + r[1..] == p[..|p| - 1] + [p[|p| - 1] + b]
  {
    var r := q[..|q| - 1] + [q[|q| - 1] + b];
    var p := [[x] + q[0]] + q[1..];
    if |q| == 1 {
      assert r == [q[0] + b];
      assert [x] + (q[0] + b) == ([x] + q[0]) + b;
    } else {
      assert r[0] == q[0] && r[1..] == q[1..|q| - 1] + [q[|q| - 1] + b];
      assert p[..|p| - 1] == [[x] + q[0]] + q[1..|q| - 1];
    }
  }

  /** One step of `Split` on a non-empty string. */
  lemma SplitCons(s: string, sep: char)
    requires |s| > 0
    ensures var rest := Split(s[1..], sep);
            Split(s, sep) == if s[0] == sep then [""] + rest else [[s[0]] + rest[0]] + rest[1..]
  {
  }

  /** Appending the separator and then text starts new parts. */
  lemma {:induction false} SplitAppendSep(a: string, b: string, sep: char)
    ensures Split(a + [sep] + b, sep) == Split(a, sep) + Split(b, sep)
    decreases |a|
  {
    var c := a + [sep] + b;
    SplitCons(c, sep);
    if |a| == 0 {
      assert c[1..] == b;
    } else {
      assert c[1..] == a[1..] + [sep] + b;
      SplitAppendSep(a[1..], b, sep);
      SplitCons(a, sep);
      var q := Split(a[1..], sep);
      var r := Split(b, sep);
      assert Split(c[1..], sep) == q + r;
      if a[0] != sep {
        ExtendFirstPart(a[0], q, r);
      }
    }
  }

  /** Extending the first of the parts `q + r` extends the first of `q`. */
  lemma ExtendFirstPart(x: char, q: seq<string>, r: seq<string>)
    requires |q| >= 1
    ensures [[x] + (q + r)[0]] + (q + r)[1..] == ([[x] + q[0]] + q[1..]) + r
  {
    assert (q + r)[1..] == q[1..] + r;
  }

  // ---------------------------------------------------------------------
  // strings.Fields

  /** The longest prefix of `s` without white space. */
  function Word(s: string): (w: string)
    ensures |w| <= |s| && w == s[..|w|] && NoSpace(w)
    ensures |w| < |s| ==> IsSpace(s[|w|])
    ensures |s| > 0 && !IsSpace(s[0]) ==> |w| >= 1
  {
    if |s| == 0 || IsSpace(s[0]) then ""
    else [s[0]] + Word(s[1..])
  }

  /** `strings.Fields`: the maximal runs of non-space characters, in order. */
  function Fields(s: string): seq<string>
    decreases |s|
  {
    if |s| == 0 then []
    else if IsSpace(s[0]) then Fields(s[1..])
    else
      var w := Word(s);
      [w] + Fields(s[|w|..])
  }

  /** Every field is non-empty and holds no white space. */
  lemma {:induction false} FieldsAreWords(s: string)
    ensures forall k :: 0 <= k < |Fields(s)| ==> |Fields(s)[k]| > 0 && NoSpace(Fields(s)[k])
    decreases |s|
  {
    if |s| > 0 {
      if IsSpace(s[0]) {
        FieldsAreWords(s[1..]);
      } else {
        FieldsAreWords(s[|Word(s)|..]);
      }
    }
  }

  // ---------------------------------------------------------------------
  // strings.ReplaceAll with a one-byte pattern

  function ReplaceChar(s: string, c: char, r: string): string
  {
    if |s| == 0 then ""
    else (if s[0] == c then r else [s[0]]) + ReplaceChar(s[1..], c, r)
  }

  lemma {:induction false} ReplaceConcat(a: string, b: string, c: char, r: string)
    ensures ReplaceChar(a + b, c, r) == ReplaceChar(a, c, r) + ReplaceChar(b, c, r)
    decreases |a|
  {
    if |a| > 0 {
      assert (a + b)[1..] == a[1..] + b;
      assert (a + b)[0] == a[0];
      ReplaceConcat(a[1..], b, c, r);
    } else {
      assert a + b == b;
    }
  }

  lemma {:induction false} ReplaceAbsent(s: string, c: char, r: string)
    requires c !in s
    ensures ReplaceChar(s, c, r) == s
    decreases |s|
  {
    if |s| > 0 {
      ReplaceAbsent(s[1..], c, r);
      assert s == [s[0]] + s[1..];
    }
  }
}
