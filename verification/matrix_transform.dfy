/**
 * getMatrixTransform.ts: the six numbers of a computed `transform`
 * ("matrix(a, b, c, d, e, f)") read back into named fields.
 */
module MatrixTransform {
  import opened Wrappers
  import opened Numbers
  import opened Text
  import opened CssValue

  /** `IMatrixTransform`; each field is whatever `parseFloat` produced, NaN included. */
  datatype Matrix = Matrix(scaleX: Parsed, skewY: Parsed, skewX: Parsed, scaleY: Parsed,
                           translateX: Parsed, translateY: Parsed)

  /** The characters a regular-expression `.` does not match. */
  predicate IsLineTerminator(c: char) {
    c == '\n' || c == '\r' || c == '\U{2028}' || c == '\U{2029}'
  }

  /** Length of the first line of `s`. */
  function LineLength(s: string): (k: nat)
    ensures k <= |s|
    ensures forall i :: 0 <= i < k ==> !IsLineTerminator(s[i])
    ensures k < |s| ==> IsLineTerminator(s[k])
  {
    if s == [] || IsLineTerminator(s[0]) then 0 else 1 + LineLength(s[1..])
  }

  /** Index of the last '(' in `s`, if any. */
  function LastOpenParen(s: string): (r: Option<nat>)
    ensures r.Some? ==> r.value < |s| && s[r.value] == '('
    ensures r.Some? ==> forall i :: r.value < i < |s| ==> s[i] != '('
    ensures r.None? ==> forall i :: 0 <= i < |s| ==> s[i] != '('
  {
    if s == [] then None
    else if s[|s| - 1] == '(' then Some(|s| - 1)
    else LastOpenParen(s[..|s| - 1])
  }

  /**
   * `s.replace(/(m.*\()|(\))/g, "")`, scanning from the left: at an 'm' the
   * first alternative swallows everything up to the last '(' on the same
   * line; a ')' is removed by the second; any other character stays.
   */
  function StripMatrixSyntax(s: string): (r: string)
    ensures forall i :: 0 <= i < |r| ==> r[i] != ')'
    decreases |s|
  {
    if s == [] then ""
    else
      var line := s[1..][..LineLength(s[1..])];
      var open := LastOpenParen(line);
      if s[0] == 'm' && open.Some? then StripMatrixSyntax(s[open.value + 2..])
      else if s[0] == ')' then StripMatrixSyntax(s[1..])
      else [s[0]] + StripMatrixSyntax(s[1..])
  }

  /** `.split(",").map((prop) => parseFloat(prop.trim()))`. */
  function ParseValues(s: string): (values: seq<Parsed>)
    ensures |values| >= 1
  {
    var pieces := Split(s, ',');
    seq(|pieces|, i requires 0 <= i < |pieces| => ParseFloat(Trim(pieces[i])))
  }

  /** `values?.[i] ?? default`: NaN is not nullish, only a missing entry is. */
  function At(values: seq<Parsed>, i: nat, default: int): (p: Parsed)
    ensures i < |values| ==> p == values[i]
    ensures i >= |values| ==> p == Number(default)
  {
    if i < |values| then values[i] else Number(default)
  }

  /**
   * `getMatrixTransform`: positions 0 to 5 of the values, each with its
   * default when missing; there is always a value at position 0.
   */
  function GetMatrixTransform(style: ComputedStyle): (r: Matrix)
    ensures r.scaleX == ParseValues(StripMatrixSyntax(GetPropertyValue(style, "transform")))[0]
  {
    var values := ParseValues(StripMatrixSyntax(GetPropertyValue(style, "transform")));
    Matrix(At(values, 0, 1), At(values, 1, 0), At(values, 2, 0), At(values, 3, 0), At(values, 4, 0), At(values, 5, 0))
  }

  /** `${v}` for each value. */
  function Rendered(vs: seq<int>): (r: seq<string>)
    ensures |r| == |vs|
    ensures forall i :: 0 <= i < |vs| ==> r[i] == FormatInt(vs[i])
  {
    seq(|vs|, i requires 0 <= i < |vs| => FormatInt(vs[i]))
  }

  /** A computed transform as a browser writes it: `matrix(v0, v1, ...)`. */
  function MatrixText(vs: seq<int>): string {
    "matrix(" + Join(Rendered(vs), ", ") + ")"
  }

  /** The first value keeps its text, every later one gains the blank after its comma. */
  function Spaced(parts: seq<string>): (r: seq<string>)
    requires parts != []
    ensures |r| == |parts| && r[0] == parts[0]
    ensures forall i :: 1 <= i < |parts| ==> r[i] == " " + parts[i]
  {
    [parts[0]] + seq(|parts| - 1, i requires 0 <= i < |parts| - 1 => " " + parts[i + 1])
  }

  /** Joining with ", " is joining with "," after spacing every later part. */
  lemma {:induction false} JoinCommaSpace(parts: seq<string>)
    requires parts != []
    ensures Join(parts, ", ") == Join(Spaced(parts), [','])
  {
    if |parts| > 1 {
      var rest := parts[1..];
      var sp := Spaced(parts);
      var srest := Spaced(rest);
      JoinCommaSpace(rest);
      SpacedRest(parts);
      JoinPrefixFirst(" ", srest, [',']);
      assert ", " == [','] + " ";
      assert Join(parts, ", ") == parts[0] + ", " + Join(rest, ", ");
      assert Join(sp, [',']) == sp[0] + [','] + Join(sp[1..], [',']);
    }
  }

  /** Spacing all but the first part, seen from the second part on. */
  lemma SpacedRest(parts: seq<string>)
    requires |parts| > 1
    ensures var srest := Spaced(parts[1..]);
      Spaced(parts)[1..] == [" " + srest[0]] + srest[1..]
  {
  }

  /** Text put in front of a join lands in front of its first part. */
  lemma JoinPrefixFirst(x: string, ps: seq<string>, sep: string)
    requires ps != []
    ensures x + Join(ps, sep) == Join([x + ps[0]] + ps[1..], sep)
  {
    var qs := [x + ps[0]] + ps[1..];
    assert qs[1..] == ps[1..];
    if |ps| > 1 {
      assert Join(ps, sep) == ps[0] + sep + Join(ps[1..], sep);
    }
  }

  /** Text without an 'm' or a ')' passes through the replacement unchanged. */
  lemma {:induction false} StripPlainPrefix(t: string, u: string)
    requires forall i :: 0 <= i < |t| ==> t[i] != 'm' && t[i] != ')'
    ensures StripMatrixSyntax(t + u) == t + StripMatrixSyntax(u)
  {
    if t != [] {
      assert (t + u)[0] == t[0];
      assert (t + u)[1..] == t[1..] + u;
      StripPlainPrefix(t[1..], u);
      assert [t[0]] + t[1..] == t;
    } else {
      assert t + u == u;
    }
  }

  /** Text with no line terminator. */
  predicate OneLine(t: string) {
    forall i :: 0 <= i < |t| ==> !IsLineTerminator(t[i])
  }

  /** Text with no '('. */
  predicate NoOpenParen(t: string) {
    forall i :: 0 <= i < |t| ==> t[i] != '('
  }

  /** A line without a terminator is all of the text. */
  lemma {:induction false} WholeLine(t: string)
    requires OneLine(t)
    ensures LineLength(t) == |t|
  {
    if t != [] {
      WholeLine(t[1..]);
    }
  }

  /** The last '(' is found where it was written, when none follows it. */
  lemma {:induction false} LastParenAt(p: string, q: string)
    requires NoOpenParen(q)
    ensures LastOpenParen(p + "(" + q) == Some(|p|)
  {
    var s := p + "(" + q;
    if q != [] {
      assert s[..|s| - 1] == p + "(" + q[..|q| - 1];
      LastParenAt(p, q[..|q| - 1]);
    }
  }

  /** A line holding one '(' with neither a '(' nor a line break after it. */
  lemma ParenLine(w: string, tail: string)
    requires OneLine(w) && OneLine(tail) && NoOpenParen(tail)
    ensures LineLength(w + ['('] + tail) == |w| + 1 + |tail|
    ensures LastOpenParen(w + ['('] + tail) == Some(|w|)
  {
    OneLineAround(w, tail);
    WholeLine(w + ['('] + tail);
    LastParenAt(w, tail);
  }

  /** Putting a '(' between two lines gives one line. */
  lemma OneLineAround(w: string, tail: string)
    requires OneLine(w) && OneLine(tail)
    ensures OneLine(w + ['('] + tail)
  {
    var rest := w + ['('] + tail;
    forall i | 0 <= i < |rest| ensures !IsLineTerminator(rest[i]) {
      if i > |w| {
        assert rest[i] == tail[i - |w| - 1];
      }
    }
  }

  /** At an 'm', everything up to the last '(' of the line goes. */
  lemma StripThroughParen(w: string, tail: string)
    requires OneLine(w) && OneLine(tail) && NoOpenParen(tail)
    ensures StripMatrixSyntax(['m'] + (w + ['('] + tail)) == StripMatrixSyntax(tail)
  {
    var rest := w + ['('] + tail;
    var s := ['m'] + rest;
    ParenLine(w, tail);
    assert s[1..] == rest;
    StripAtOpen(s, |w|);
    assert s[|w| + 2..] == tail;
  }

  /** At an 'm' whose line runs to the end of the text, the replacement resumes after the line's last '('. */
  lemma StripAtOpen(s: string, k: nat)
    requires s != [] && s[0] == 'm'
    requires LineLength(s[1..]) == |s| - 1 && LastOpenParen(s[1..]) == Some(k)
    ensures StripMatrixSyntax(s) == StripMatrixSyntax(s[k + 2..])
  {
    assert s[1..][..|s| - 1] == s[1..];
  }

  lemma MatrixKeyword()
    ensures "matrix(" == ['m'] + "atrix" + ['(']
    ensures OneLine("atrix")
  {
  }

  lemma StripCloseParen()
    ensures StripMatrixSyntax([')']) == ""
  {
  }

  /** Text of numbers, commas and blanks. */
  predicate NumberList(body: string) {
    forall i :: 0 <= i < |body| ==> body[i] == '-' || body[i] == ',' || body[i] == ' ' || IsDigit(body[i])
  }

  lemma ClosedNumberList(body: string)
    requires NumberList(body)
    ensures OneLine(body + [')']) && NoOpenParen(body + [')'])
    ensures forall i :: 0 <= i < |body| ==> body[i] != 'm' && body[i] != ')'
  {
    var tail := body + [')'];
    forall i | 0 <= i < |tail| ensures tail[i] != '(' && !IsLineTerminator(tail[i]) {
      if i < |body| {
        assert tail[i] == body[i];
      }
    }
  }

  /** The replacement turns `matrix(body)` into `body`, for a body of numbers, commas and blanks. */
  lemma StripMatrixWrapper(body: string)
    requires NumberList(body)
    ensures StripMatrixSyntax("matrix(" + body + ")") == body
  {
    var tail := body + [')'];
    ClosedNumberList(body);
    MatrixKeyword();
    StripThroughParen("atrix", tail);
    assert "matrix(" + body + ")" == ['m'] + ("atrix" + ['('] + tail);
    StripPlainPrefix(body, [')']);
    StripCloseParen();
    assert body + "" == body;
  }

  /** The joined text of rendered integers consists of digits, signs, commas and blanks. */
  lemma {:induction false} JoinedCharacters(vs: seq<int>)
    requires vs != []
    ensures NumberList(Join(Rendered(vs), ", "))
  {
    if |vs| > 1 {
      JoinedCharacters(vs[1..]);
      assert Rendered(vs)[1..] == Rendered(vs[1..]);
      var head := FormatInt(vs[0]);
      var tail := Join(Rendered(vs[1..]), ", ");
      assert Join(Rendered(vs), ", ") == head + ", " + tail;
      forall i | 0 <= i < |head + ", " + tail|
        ensures var c := (head + ", " + tail)[i]; c == '-' || c == ',' || c == ' ' || IsDigit(c)
      {
        if i >= |head| + 2 {
          assert (head + ", " + tail)[i] == tail[i - |head| - 2];
        }
      }
    }
  }

  /** A rendered integer, with or without a leading blank, trims and reads back as itself. */
  lemma ReadsBack(v: int, pad: string)
    requires pad == "" || pad == " "
    ensures ParseFloat(Trim(pad + FormatInt(v))) == Number(v)
  {
    var t := FormatInt(v);
    assert !IsSpace(t[|t| - 1]);
    assert pad + t + "" == pad + t;
    TrimPadded(pad, t, "");
    ParseFormatInt(v, "");
    assert t + "" == t;
  }

  lemma NoComma(pad: string, v: int)
    requires pad == "" || pad == " "
    ensures ',' !in pad + FormatInt(v)
  {
    var t := pad + FormatInt(v);
    forall j | 0 <= j < |t| ensures t[j] != ',' {
      if j >= |pad| {
        assert t[j] == FormatInt(v)[j - |pad|];
      }
    }
  }

  /** The pieces of a joined list of rendered integers, split at each comma. */
  lemma SplitRendered(vs: seq<int>)
    requires vs != []
    ensures Split(Join(Rendered(vs), ", "), ',') == Spaced(Rendered(vs))
  {
    var parts := Rendered(vs);
    JoinCommaSpace(parts);
    var sp := Spaced(parts);
    forall i | 0 <= i < |sp| ensures ',' !in sp[i] {
      NoComma(if i == 0 then "" else " ", vs[i]);
    }
    SplitJoin(sp, ',');
  }

  /** Reading the joined list gives every integer back, in order. */
  lemma ParseRendered(vs: seq<int>)
    requires vs != []
    ensures ParseValues(Join(Rendered(vs), ", ")) == seq(|vs|, i requires 0 <= i < |vs| => Number(vs[i]))
  {
    SplitRendered(vs);
    var values := ParseValues(Join(Rendered(vs), ", "));
    forall i | 0 <= i < |vs| ensures values[i] == Number(vs[i]) {
      if i == 0 {
        ReadsBack(vs[0], "");
        assert "" + FormatInt(vs[0]) == FormatInt(vs[0]);
      } else {
        ReadsBack(vs[i], " ");
      }
    }
  }

  /** Every integer of a `matrix(...)` text is read back, in order. */
  lemma MatrixValuesRoundTrip(vs: seq<int>)
    requires vs != []
    ensures ParseValues(StripMatrixSyntax(MatrixText(vs))) == seq(|vs|, i requires 0 <= i < |vs| => Number(vs[i]))
  {
    JoinedCharacters(vs);
    StripMatrixWrapper(Join(Rendered(vs), ", "));
    ParseRendered(vs);
  }

  /** A browser's `matrix(a, b, c, d, e, f)` fills the six fields in order. */
  lemma MatrixRoundTrip(style: ComputedStyle, a: int, b: int, c: int, d: int, e: int, f: int)
    requires "transform" in style && style["transform"] == MatrixText([a, b, c, d, e, f])
    ensures GetMatrixTransform(style) == Matrix(Number(a), Number(b), Number(c), Number(d), Number(e), Number(f))
  {
    MatrixValuesRoundTrip([a, b, c, d, e, f]);
  }

  /** Values after the sixth are read but ignored: the first six fill the fields in order. */
  lemma MatrixIgnoresLaterValues(style: ComputedStyle, vs: seq<int>)
    requires |vs| >= 6
    requires "transform" in style && style["transform"] == MatrixText(vs)
    ensures GetMatrixTransform(style) == Matrix(Number(vs[0]), Number(vs[1]), Number(vs[2]),
                                                Number(vs[3]), Number(vs[4]), Number(vs[5]))
  {
    MatrixValuesRoundTrip(vs);
  }

  /**
   * A word such as "none" (no 'm', ')' or ',', no blank at either end, not
   * starting with a digit or a sign) passes the replacement unchanged,
   * splits into itself and reads as NaN.
   */
  lemma WordReadsNaN(w: string)
    requires w != [] && !IsSpace(w[0]) && !IsSpace(w[|w| - 1])
    requires !IsDigit(w[0]) && w[0] != '-' && w[0] != '+'
    requires forall i :: 0 <= i < |w| ==> w[i] != 'm' && w[i] != ')' && w[i] != ','
    ensures ParseValues(StripMatrixSyntax(w)) == [NaN]
  {
    StripPlainPrefix(w, "");
    assert w + "" == w;
    SplitNoSeparator(w, ',');
    var pieces := Split(w, ',');
    assert |pieces| == 1 && pieces[0] == w;
    TrimUnpadded(w);
    assert SkipSpace(w) == w;
    assert LeadingDigits(w) == 0;
    assert ParseValues(w)[0] == NaN;
  }

  /**
   * With no transform ("none", or nothing set) there is always one value, so
   * scaleX is NaN rather than its default of 1; the five other fields take
   * their default of 0, scaleY included.
   */
  lemma NoTransform(style: ComputedStyle)
    requires "transform" !in style || style["transform"] == "none"
    ensures GetMatrixTransform(style) == Matrix(NaN, Number(0), Number(0), Number(0), Number(0), Number(0))
  {
    var raw := GetPropertyValue(style, "transform");
    if raw == "none" {
      WordReadsNaN("none");
    } else {
      assert raw == "";
      assert Split("", ',') == [""];
    }
    assert ParseValues(StripMatrixSyntax(raw)) == [NaN];
  }
}
