/** The four `strptime`/`strftime` patterns the stage scripts use, on the
    fixed-width subset: two-digit day and month, four-digit year, one
    separator character. A parse succeeds only for a real calendar date. */
module DateFormats {
  import opened Base
  import opened Numerals
  import opened Calendar

  /** `%Y<sep>%m<sep>%d` or `%d<sep>%m<sep>%Y`. */
  datatype Format = YearFirst(sep: char) | DayFirst(sep: char)

  /** `%Y-%m-%d`, the only pattern the crawler accepts and the key format of the process log. */
  const Iso: Format := YearFirst('-')
  /** `%d/%m/%Y`, the crawler's window rendering. */
  const SlashDmy: Format := DayFirst('/')
  /** `%d-%m-%Y`, the staging loader's file-name rendering. */
  const DashDmy: Format := DayFirst('-')

  /** The ordered pattern list of the staging loader and of the transform step. */
  const Lenient: seq<Format> := [Iso, SlashDmy, YearFirst('/'), DashDmy]

  function Render(f: Format, d: Date): (s: string)
    requires Valid(d)
    ensures |s| == 10
  {
    var y := Pad(d.year, 4);
    var m := Pad(d.month, 2);
    var dd := Pad(d.day, 2);
    match f
    case YearFirst(c) => y + [c] + m + [c] + dd
    case DayFirst(c) => dd + [c] + m + [c] + y
  }

  /** The year, month and day fields of a ten-character text in format `f`. */
  function Fields(f: Format, s: string): (r: (string, string, string))
    requires |s| == 10
    ensures |r.0| == 4 && |r.1| == 2 && |r.2| == 2
  {
    match f
    case YearFirst(_) => (s[..4], s[5..7], s[8..])
    case DayFirst(_) => (s[6..], s[3..5], s[..2])
  }

  predicate SeparatorsAt(f: Format, s: string)
    requires |s| == 10
  {
    match f
    case YearFirst(c) => s[4] == c && s[7] == c
    case DayFirst(c) => s[2] == c && s[5] == c
  }

  /** `datetime.strptime(s, f)`: `None` where Python raises `ValueError`. */
  function Parse(f: Format, s: string): Option<Date> {
    if |s| != 10 || !SeparatorsAt(f, s) then None
    else
      var (ys, ms, ds) := Fields(f, s);
      if !(AllDigits(ys) && AllDigits(ms) && AllDigits(ds)) then None
      else
        var d := Date(DigitsValue(ys), DigitsValue(ms), DigitsValue(ds));
        if Valid(d) then Some(d) else None
  }

  lemma ParseValid(f: Format, s: string)
    requires Parse(f, s).Some?
    ensures Valid(Parse(f, s).value)
  {
  }

  /** A ten-character text is its three fields joined by the separators,
      in the pattern's order. */
  function Join3(f: Format, y: string, m: string, d: string): string {
    match f
    case YearFirst(c) => y + [c] + m + [c] + d
    case DayFirst(c) => d + [c] + m + [c] + y
  }

  /** Splitting the join of a four-, a two- and a two-character field gives
      the fields back, with the separators in place. */
  lemma SplitJoin(f: Format, y: string, m: string, d: string)
    requires |y| == 4 && |m| == 2 && |d| == 2
    ensures |Join3(f, y, m, d)| == 10
    ensures SeparatorsAt(f, Join3(f, y, m, d))
    ensures Fields(f, Join3(f, y, m, d)) == (y, m, d)
  {
    var s := Join3(f, y, m, d);
    match f
    case YearFirst(c) =>
      assert s[..4] == y && s[5..7] == m && s[8..] == d;
    case DayFirst(c) =>
      assert s[6..] == y && s[3..5] == m && s[..2] == d;
  }

  /** A ten-character text with the separators in place is the join of its fields. */
  lemma JoinSplit(f: Format, s: string)
    requires |s| == 10 && SeparatorsAt(f, s)
    ensures Join3(f, Fields(f, s).0, Fields(f, s).1, Fields(f, s).2) == s
  {
    match f
    case YearFirst(c) =>
      assert s == s[..4] + [s[4]] + s[5..7] + [s[7]] + s[8..];
    case DayFirst(c) =>
      assert s == s[..2] + [s[2]] + s[3..5] + [s[5]] + s[6..];
  }

  lemma RenderIsJoin(f: Format, d: Date)
    requires Valid(d)
    ensures Render(f, d) == Join3(f, Pad(d.year, 4), Pad(d.month, 2), Pad(d.day, 2))
  {
  }

  /** Parsing what was rendered gives the date back. */
  lemma ParseRender(f: Format, d: Date)
    requires Valid(d)
    ensures Parse(f, Render(f, d)) == Some(d)
  {
    var y, m, dd := Pad(d.year, 4), Pad(d.month, 2), Pad(d.day, 2);
    RenderIsJoin(f, d);
    SplitJoin(f, y, m, dd);
    PadValue(d.year, 4);
    PadValue(d.month, 2);
    PadValue(d.day, 2);
  }

  /** Rendering a parsed date gives the text back: on this subset the text
      and the date determine each other. */
  lemma RenderParse(f: Format, s: string)
    requires Parse(f, s).Some?
    ensures Render(f, Parse(f, s).value) == s
  {
    var (ys, ms, ds) := Fields(f, s);
    ValuePad(ys);
    ValuePad(ms);
    ValuePad(ds);
    RenderIsJoin(f, Parse(f, s).value);
    JoinSplit(f, s);
  }

  /** Rendering is injective: different valid dates give different texts. */
  lemma RenderInjective(f: Format, d1: Date, d2: Date)
    requires Valid(d1) && Valid(d2)
    ensures Render(f, d1) == Render(f, d2) <==> d1 == d2
  {
    if Render(f, d1) == Render(f, d2) {
      ParseRender(f, d1);
      ParseRender(f, d2);
    }
  }

  /** Try each pattern in order; the first that parses wins. */
  function ParseFirst(fs: seq<Format>, s: string): (r: Option<Date>)
    ensures r.Some? ==> Valid(r.value)
  {
    if |fs| == 0 then None
    else
      match Parse(fs[0], s)
      case Some(d) => Some(d)
      case None => ParseFirst(fs[1..], s)
  }

  /** `ParseFirst` returns `d` exactly when some pattern parses `s` to `d`
      and every earlier pattern rejects `s`. */
  lemma {:induction false} ParseFirstIsFirstSuccess(fs: seq<Format>, s: string, d: Date)
    ensures ParseFirst(fs, s) == Some(d) <==>
      exists i :: 0 <= i < |fs| && Parse(fs[i], s) == Some(d)
        && forall j :: 0 <= j < i ==> Parse(fs[j], s).None?
  {
    if |fs| > 0 {
      ParseFirstIsFirstSuccess(fs[1..], s, d);
      if Parse(fs[0], s).None? {
        if ParseFirst(fs, s) == Some(d) {
          var i :| 0 <= i < |fs[1..]| && Parse(fs[1..][i], s) == Some(d)
            && forall j :: 0 <= j < i ==> Parse(fs[1..][j], s).None?;
          assert Parse(fs[i + 1], s) == Some(d);
          forall j | 0 <= j < i + 1
            ensures Parse(fs[j], s).None?
          {
            if j > 0 {
              assert fs[j] == fs[1..][j - 1];
            }
          }
        }
        if exists i :: 0 <= i < |fs| && Parse(fs[i], s) == Some(d)
            && forall j :: 0 <= j < i ==> Parse(fs[j], s).None? {
          var i :| 0 <= i < |fs| && Parse(fs[i], s) == Some(d)
            && forall j :: 0 <= j < i ==> Parse(fs[j], s).None?;
          assert i > 0;
          assert Parse(fs[1..][i - 1], s) == Some(d);
          forall j | 0 <= j < i - 1
            ensures Parse(fs[1..][j], s).None?
          {
            assert fs[1..][j] == fs[j + 1];
          }
        }
      } else {
        if ParseFirst(fs, s) == Some(d) {
          assert Parse(fs[0], s) == Some(d);
        }
      }
    }
  }

  /** The lenient parser of the staging loader and the transform step. */
  function ParseLenient(s: string): (r: Option<Date>)
    ensures r.Some? ==> Valid(r.value)
    ensures Parse(Iso, s).Some? ==> r == Parse(Iso, s)
  {
    ParseFirst(Lenient, s)
  }

  /** Every text the lenient parser accepts is in exactly one of its patterns
      (on this subset the separators' positions and characters differ). */
  lemma LenientPatternsDisjoint(s: string, i: nat, j: nat)
    requires i < j < |Lenient|
    ensures Parse(Lenient[i], s).None? || Parse(Lenient[j], s).None?
  {
  }

  /** The lenient parser tries `%Y-%m-%d`, `%d/%m/%Y`, `%Y/%m/%d` and
      `%d-%m-%Y`, in that order. */
  lemma LenientOrder(s: string)
    ensures ParseLenient(s) ==
      if Parse(Iso, s).Some? then Parse(Iso, s)
      else if Parse(SlashDmy, s).Some? then Parse(SlashDmy, s)
      else if Parse(YearFirst('/'), s).Some? then Parse(YearFirst('/'), s)
      else Parse(DashDmy, s)
  {
    var l1, l2, l3 := Lenient[1..], Lenient[2..], Lenient[3..];
    assert l1[1..] == l2 && l2[1..] == l3 && l3[1..] == [];
    assert ParseFirst(l3, s) == Parse(DashDmy, s);
    assert ParseFirst(l2, s) == if Parse(YearFirst('/'), s).Some? then Parse(YearFirst('/'), s) else ParseFirst(l3, s);
    assert ParseFirst(l1, s) == if Parse(SlashDmy, s).Some? then Parse(SlashDmy, s) else ParseFirst(l2, s);
  }

  /** Each spelling of a date in a pattern the parser does not reach first
      is rejected by the earlier patterns, so the lenient parser returns the
      date whichever spelling it is given. */
  lemma LenientReadsEverySpelling(d: Date)
    requires Valid(d)
    ensures forall f | f in Lenient :: ParseLenient(Render(f, d)) == Some(d)
  {
    forall f | f in Lenient
      ensures ParseLenient(Render(f, d)) == Some(d)
    {
      var s := Render(f, d);
      ParseRender(f, d);
      LenientOrder(s);
      var y := Pad(d.year, 4);
      var m := Pad(d.month, 2);
      var dd := Pad(d.day, 2);
      if f == SlashDmy {
        assert s[4] == m[1] && IsDigit(m[1]);
      } else if f == YearFirst('/') {
        assert s[4] == '/' && s[2] == y[2] && IsDigit(y[2]);
      } else if f == DashDmy {
        assert s[4] == m[1] && IsDigit(m[1]);
        assert s[2] == '-';
        assert s[4] != '/';
      }
    }
  }

  /** A ten-character text whose third and fifth characters are neither `-`
      nor `/` (say `05.01.2025` or `2025_01_05`), like any text of another
      length, is in none of the patterns. */
  lemma LenientRejectsOtherSeparators(s: string)
    requires |s| != 10 || (s[2] != '-' && s[2] != '/' && s[4] != '-' && s[4] != '/')
    ensures ParseLenient(s) == None
  {
    LenientOrder(s);
  }

  /** A pattern accepts exactly the renderings of valid dates, and reads
      each as the date it renders. */
  lemma ParseIsRendering(f: Format, s: string)
    ensures Parse(f, s).Some? ==> Valid(Parse(f, s).value) && Render(f, Parse(f, s).value) == s
    ensures forall d :: Valid(d) && Render(f, d) == s ==> Parse(f, s) == Some(d)
  {
    if Parse(f, s).Some? {
      RenderParse(f, s);
    }
    forall d | Valid(d) && Render(f, d) == s
      ensures Parse(f, s) == Some(d)
    {
      ParseRender(f, d);
    }
  }

  /** The lenient parser accepts exactly the renderings of valid dates in
      one of its four patterns, and reads each as the date it renders. */
  lemma LenientIsRendering(s: string)
    ensures ParseLenient(s).Some? ==> exists f :: f in Lenient && Render(f, ParseLenient(s).value) == s
    ensures forall f, d :: f in Lenient && Valid(d) && Render(f, d) == s ==> ParseLenient(s) == Some(d)
  {
    LenientOrder(s);
    if Parse(Iso, s).Some? {
      RenderParse(Iso, s);
      assert Lenient[0] == Iso;
    } else if Parse(SlashDmy, s).Some? {
      RenderParse(SlashDmy, s);
      assert Lenient[1] == SlashDmy;
    } else if Parse(YearFirst('/'), s).Some? {
      RenderParse(YearFirst('/'), s);
      assert Lenient[2] == YearFirst('/');
    } else if Parse(DashDmy, s).Some? {
      RenderParse(DashDmy, s);
      assert Lenient[3] == DashDmy;
    }
    forall f, d | f in Lenient && Valid(d) && Render(f, d) == s
      ensures ParseLenient(s) == Some(d)
    {
      LenientReadsEverySpelling(d);
    }
  }
}
