/** String helpers shared by the backend settings and the registration form:
    whitespace stripping and splitting on a separator. */
module Text {

  /** Whose notion of whitespace a strip uses: Python's `str.strip()` on the
      backend, JavaScript's `String.prototype.trim()` on the front end. */
  datatype Runtime = Python | JavaScript

  /** The characters each runtime strips. Both remove the ASCII controls tab to
      carriage return, the space, the no-break space and the Unicode space
      separators and line/paragraph separators; Python also removes the
      information separators U+001C to U+001F and U+0085, JavaScript also the
      byte order mark U+FEFF. */
  predicate IsSpace(c: char, rt: Runtime) {
    || ('\t' <= c <= '\r') || c == ' ' || c == '\U{A0}' || c == '\U{1680}'
    || ('\U{2000}' <= c <= '\U{200A}') || c == '\U{2028}' || c == '\U{2029}'
    || c == '\U{202F}' || c == '\U{205F}' || c == '\U{3000}'
    || (rt == Python && (('\U{1C}' <= c <= '\U{1F}') || c == '\U{85}'))
    || (rt == JavaScript && c == '\U{FEFF}')
  }

  /** Neither the first nor the last character is whitespace. */
  predicate NoSurroundingSpace(s: string, rt: Runtime) {
    s == [] || (!IsSpace(s[0], rt) && !IsSpace(s[|s| - 1], rt))
  }

  /** `s` without its leading whitespace. */
  function TrimStart(s: string, rt: Runtime): (r: string)
    ensures |r| <= |s| && r == s[|s| - |r|..]
    ensures forall k :: 0 <= k < |s| - |r| ==> IsSpace(s[k], rt)
    ensures r == [] || !IsSpace(r[0], rt)
  {
    if |s| > 0 && IsSpace(s[0], rt) then TrimStart(s[1..], rt) else s
  }

  /** `s` without its trailing whitespace. */
  function TrimEnd(s: string, rt: Runtime): (r: string)
    ensures |r| <= |s| && r == s[..|r|]
    ensures forall k :: |r| <= k < |s| ==> IsSpace(s[k], rt)
    ensures r == [] || !IsSpace(r[|r| - 1], rt)
  {
    if |s| > 0 && IsSpace(s[|s| - 1], rt) then TrimEnd(s[..|s| - 1], rt) else s
  }

  /** `r` is the part of `s` that starts at index `i`, and every character of `s`
      around that part is whitespace. */
  predicate MiddleAt(s: string, r: string, i: int, rt: Runtime) {
    && 0 <= i <= i + |r| <= |s|
    && r == s[i..i + |r|]
    && (forall k :: 0 <= k < i ==> IsSpace(s[k], rt))
    && (forall k :: i + |r| <= k < |s| ==> IsSpace(s[k], rt))
  }

  /** A prefix `r` of a suffix `t` of `s` is the middle of `s` when what the two
      cuts remove is whitespace. */
  lemma MiddleOfSlices(s: string, t: string, r: string, rt: Runtime)
    requires |t| <= |s| && t == s[|s| - |t|..]
    requires |r| <= |t| && r == t[..|r|]
    requires forall k :: 0 <= k < |s| - |t| ==> IsSpace(s[k], rt)
    requires forall k :: |r| <= k < |t| ==> IsSpace(t[k], rt)
    ensures MiddleAt(s, r, |s| - |t|, rt)
  {
    var i := |s| - |t|;
    forall k | 0 <= k < |r| ensures r[k] == s[i + k] {
      assert r[k] == t[k];
    }
    forall k | i + |r| <= k < |s| ensures IsSpace(s[k], rt) {
      assert s[k] == t[k - i];
    }
  }

  /** Trimming both ends leaves the middle of `s` at the index where the
      leading whitespace ends. */
  lemma TrimmedIsMiddle(s: string, rt: Runtime)
    ensures MiddleAt(s, TrimEnd(TrimStart(s, rt), rt), |s| - |TrimStart(s, rt)|, rt)
  {
    MiddleOfSlices(s, TrimStart(s, rt), TrimEnd(TrimStart(s, rt), rt), rt);
  }

  /** Python's `str.strip()` or JavaScript's `trim()`, as `rt` says: the middle
      part of `s` with only whitespace around it and none at its ends. */
  function Strip(s: string, rt: Runtime): (r: string)
    ensures NoSurroundingSpace(r, rt)
    ensures exists i :: MiddleAt(s, r, i, rt)
  {
    var t := TrimStart(s, rt);
    var r := TrimEnd(t, rt);
    TrimmedIsMiddle(s, rt);
    assert r != [] ==> r[0] == t[0];
    r
  }

  /** Stripping twice is stripping once. */
  lemma StripIdempotent(s: string, rt: Runtime)
    ensures Strip(Strip(s, rt), rt) == Strip(s, rt)
  {
    var r := Strip(s, rt);
    if r != [] {
      assert TrimStart(r, rt) == r;
      assert TrimEnd(r, rt) == r;
    }
  }

  /** The two runtimes disagree: Python strips a leading unit separator
      U+001F, JavaScript keeps it; JavaScript strips a byte order mark, Python
      keeps it. */
  lemma RuntimesDisagree()
    ensures Strip("\U{1F}b", Python) == "b" && Strip("\U{1F}b", JavaScript) == "\U{1F}b"
    ensures Strip("\U{FEFF}b", JavaScript) == "b" && Strip("\U{FEFF}b", Python) == "\U{FEFF}b"
  {
    var us, bom := "\U{1F}b", "\U{FEFF}b";
    assert !IsSpace('b', Python) && !IsSpace('b', JavaScript);
    assert IsSpace(us[0], Python) && !IsSpace(us[0], JavaScript);
    assert IsSpace(bom[0], JavaScript) && !IsSpace(bom[0], Python);
    assert us[1..] == "b" && bom[1..] == "b";
    assert TrimStart("b", Python) == "b" && TrimEnd("b", Python) == "b";
    assert TrimStart("b", JavaScript) == "b" && TrimEnd("b", JavaScript) == "b";
    assert TrimStart(us, Python) == "b";
    assert TrimStart(bom, JavaScript) == "b";
    assert TrimStart(us, JavaScript) == us && TrimEnd(us, JavaScript) == us;
    assert TrimStart(bom, Python) == bom && TrimEnd(bom, Python) == bom;
  }

  /** Number of occurrences of `c` in `s`. */
  function Count(s: string, c: char): nat {
    if s == [] then 0 else (if s[0] == c then 1 else 0) + Count(s[1..], c)
  }

  /** Python's `s.split(sep)` for a one-character separator: the pieces between
      separators, including empty ones, so there is always at least one piece. */
  function Split(s: string, sep: char): (r: seq<string>)
    ensures |r| >= 1
  {
    if s == [] then [[]]
    else
      var rest := Split(s[1..], sep);
      if s[0] == sep then [[]] + rest else [[s[0]] + rest[0]] + rest[1..]
  }

  /** Python's `sep.join(pieces)`. */
  function Join(pieces: seq<string>, sep: char): string {
    if pieces == [] then []
    else if |pieces| == 1 then pieces[0]
    else pieces[0] + [sep] + Join(pieces[1..], sep)
  }

  /** There are as many pieces as separators plus one. */
  lemma {:induction false} SplitCount(s: string, sep: char)
    ensures |Split(s, sep)| == Count(s, sep) + 1
  {
    if s != [] {
      SplitCount(s[1..], sep);
    }
  }

  /** No piece contains the separator. */
  lemma {:induction false} SplitPiecesHaveNoSeparator(s: string, sep: char)
    ensures forall i :: 0 <= i < |Split(s, sep)| ==> sep !in Split(s, sep)[i]
  {
    if s != [] {
      SplitPiecesHaveNoSeparator(s[1..], sep);
      var rest := Split(s[1..], sep);
      if s[0] != sep {
        assert sep !in rest[0];
        assert forall i :: 1 <= i < |Split(s, sep)| ==> Split(s, sep)[i] == rest[i];
      }
    }
  }

  lemma JoinCons(p: string, ps: seq<string>, sep: char)
    requires ps != []
    ensures Join([p] + ps, sep) == p + [sep] + Join(ps, sep)
  {
    assert ([p] + ps)[1..] == ps;
  }

  /** Prepending a character to the first piece prepends it to the join. */
  lemma JoinPrependFirst(c: char, ps: seq<string>, sep: char)
    requires ps != []
    ensures Join([[c] + ps[0]] + ps[1..], sep) == [c] + Join(ps, sep)
  {
    if |ps| > 1 {
      JoinCons([c] + ps[0], ps[1..], sep);
      JoinCons(ps[0], ps[1..], sep);
      assert ps == [ps[0]] + ps[1..];
      assert [c] + ps[0] + [sep] + Join(ps[1..], sep) == [c] + (ps[0] + [sep] + Join(ps[1..], sep));
    }
  }

  /** Joining the pieces with the separator gives back the string. */
  lemma {:induction false} JoinSplit(s: string, sep: char)
    ensures Join(Split(s, sep), sep) == s
  {
    if s != [] {
      JoinSplit(s[1..], sep);
      var rest := Split(s[1..], sep);
      assert s == [s[0]] + s[1..];
      if s[0] == sep {
        JoinCons([], rest, sep);
      } else {
        JoinPrependFirst(s[0], rest, sep);
      }
    }
  }

  /** Splitting the join of pieces that contain no separator gives back the pieces. */
  lemma {:induction false} SplitJoin(pieces: seq<string>, sep: char)
    requires pieces != []
    requires forall i :: 0 <= i < |pieces| ==> sep !in pieces[i]
    ensures Split(Join(pieces, sep), sep) == pieces
    decreases |pieces|, |pieces[0]|
  {
    var p := pieces[0];
    if p == [] {
      if |pieces| > 1 {
        SplitJoin(pieces[1..], sep);
        var j := Join(pieces, sep);
        assert j == [sep] + Join(pieces[1..], sep);
        assert j[1..] == Join(pieces[1..], sep);
        assert pieces == [[]] + pieces[1..];
      }
    } else {
      var shorter := [p[1..]] + pieces[1..];
      assert forall i :: 1 <= i < |shorter| ==> shorter[i] == pieces[i];
      SplitJoin(shorter, sep);
      var j := Join(pieces, sep);
      if |pieces| == 1 {
        assert j == p;
      } else {
        assert j == p + [sep] + Join(pieces[1..], sep);
        assert Join(shorter, sep) == p[1..] + [sep] + Join(pieces[1..], sep);
      }
      assert j == [p[0]] + Join(shorter, sep);
      assert j[1..] == Join(shorter, sep);
      assert p == [p[0]] + p[1..];
      assert pieces == [p] + pieces[1..];
    }
  }
}
