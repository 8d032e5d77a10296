/** src/styles/utils.ts: `num2Unit`, the theme's numbers written with a CSS unit. */
module StyleUnits {
  import opened Numbers

  /** A theme value: one number or a list of them. */
  datatype Amount = Scalar(n: int) | List(ns: seq<int>)

  /** One string, or one string per number. */
  datatype UnitText = One(s: string) | Many(ss: seq<string>)

  /** `${num}${unit}` for one number or for each number of a list. */
  function Num2Unit(num: Amount, unit: string): (r: UnitText)
    ensures num.Scalar? <==> r.One?
    ensures num.List? ==> |r.ss| == |num.ns|
  {
    match num
    case Scalar(n) => One(FormatInt(n) + unit)
    case List(ns) => Many(seq(|ns|, i requires 0 <= i < |ns| => FormatInt(ns[i]) + unit))
  }

  /** Every written value ends with the unit. */
  lemma Num2UnitEndsWithUnit(num: Amount, unit: string)
    ensures var r := Num2Unit(num, unit);
      && (r.One? ==> |r.s| > |unit| && r.s[|r.s| - |unit|..] == unit)
      && (r.Many? ==> forall i :: 0 <= i < |r.ss| ==> |r.ss[i]| > |unit| && r.ss[i][|r.ss[i]| - |unit|..] == unit)
  {
    match num
    case Scalar(n) =>
      var s := FormatInt(n) + unit;
      assert s[|s| - |unit|..] == unit;
    case List(ns) =>
      var r := Num2Unit(num, unit);
      forall i | 0 <= i < |r.ss| ensures |r.ss[i]| > |unit| && r.ss[i][|r.ss[i]| - |unit|..] == unit {
        var s := FormatInt(ns[i]) + unit;
        assert r.ss[i] == s;
        assert s[|s| - |unit|..] == unit;
      }
  }

  /** With a unit such as "px" or "rem", `parseFloat` reads each written value back as its number. */
  lemma Num2UnitReadsBack(num: Amount, unit: string)
    requires unit == [] || !IsDigit(unit[0])
    ensures var r := Num2Unit(num, unit);
      && (r.One? ==> ParseFloat(r.s) == Number(num.n))
      && (r.Many? ==> forall i :: 0 <= i < |r.ss| ==> ParseFloat(r.ss[i]) == Number(num.ns[i]))
  {
    match num
    case Scalar(n) =>
      ParseFormatInt(n, unit);
    case List(ns) =>
      var r := Num2Unit(num, unit);
      forall i | 0 <= i < |r.ss| ensures ParseFloat(r.ss[i]) == Number(ns[i]) {
        ParseFormatInt(ns[i], unit);
      }
  }
}
