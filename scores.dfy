/**
  The data side of `create_chart`: the twelve scores in `ChartData` order,
  the two-series table built from them, the per-category tier of every row
  (`np.select` over four score ranges), the aggregate level of the total and
  the strings derived from them (chart title, image path, radial axis).
 */
module Scores {
  import opened Wrappers
  import opened Text

  // ---------------------------------------------------------------------------
  // The request body and its positional order
  // ---------------------------------------------------------------------------

  /** The twelve integer fields of the request body, in declaration order. */
  datatype ChartData = ChartData(
    teamSolvingX2: int, stakeholdersSolvingX2: int, approachSolvingX2: int,
    planningSolvingX2: int, measurementSolvingX2: int, risksSolvingX2: int,
    teamTools: int, stakeholdersTools: int, approachTools: int,
    planningTools: int, measurementTools: int, risksTools: int)

  /** Rebuilds the body from a list of its field values in declaration order. */
  function FromValues(lst: seq<int>): ChartData
    requires |lst| == 12
  {
    ChartData(lst[0], lst[1], lst[2], lst[3], lst[4], lst[5],
              lst[6], lst[7], lst[8], lst[9], lst[10], lst[11])
  }

  /**
    `list(data.dict().values())`: the field values in declaration order, so
    the list holds exactly the body's fields and nothing else.
   */
  function Values(d: ChartData): (lst: seq<int>)
    ensures |lst| == 12 && FromValues(lst) == d
  {
    [d.teamSolvingX2, d.stakeholdersSolvingX2, d.approachSolvingX2,
     d.planningSolvingX2, d.measurementSolvingX2, d.risksSolvingX2,
     d.teamTools, d.stakeholdersTools, d.approachTools,
     d.planningTools, d.measurementTools, d.risksTools]
  }

  lemma ValuesFromValues(lst: seq<int>)
    requires |lst| == 12
    ensures Values(FromValues(lst)) == lst
  {
  }

  // ---------------------------------------------------------------------------
  // The two-series table (`df1`, `df2`, `pd.concat`)
  // ---------------------------------------------------------------------------

  const Categories: seq<string> :=
    ["Команда", "Заинт. стороны", "Подход и поставка", "Планирование",
     "Работа и измерение", "Риски"]
  const Problems: string := "проблемы"
  const Competencies: string := "компетенции"

  datatype Row = Row(category: string, aspect: string, score: int)

  /**
    One `pd.DataFrame` of the six categories, one aspect and a score column;
    pandas refuses columns of different lengths, so a score column that is
    not six long gives None.
   */
  function Frame(aspect: string, scores: seq<int>): (df: Option<seq<Row>>)
    ensures df.Some? <==> |scores| == |Categories|
    ensures df.Some? ==> (|df.value| == |scores| &&
      forall i :: 0 <= i < |scores| ==> df.value[i] == Row(Categories[i], aspect, scores[i]))
  {
    if |scores| != |Categories| then None
    else Some(seq(|scores|, i requires 0 <= i < |scores| => Row(Categories[i], aspect, scores[i])))
  }

  /** Python's `lst[:k]` and `lst[k:]`, which clamp instead of failing. */
  function Head(lst: seq<int>, k: nat): (h: seq<int>)
    ensures |h| <= k && |h| <= |lst| && h == lst[..|h|]
    ensures |h| < k ==> h == lst
  {
    if k <= |lst| then lst[..k] else lst
  }

  function Tail(lst: seq<int>, k: nat): (t: seq<int>)
    ensures Head(lst, k) + t == lst
  {
    if k <= |lst| then lst[k..] else []
  }

  /**
    `pd.concat([df1, df2], ignore_index=True)`: the first six scores as
    "проблемы", then the last six as "компетенции", both against the same six
    categories; any list that is not twelve long makes one of the frames fail.
   */
  function Table(lst: seq<int>): (df: Option<seq<Row>>)
    ensures df.Some? <==> |lst| == 12
    ensures df.Some? ==> (|df.value| == 12 &&
      (forall i :: 0 <= i < 6 ==> df.value[i] == Row(Categories[i], Problems, lst[i])) &&
      (forall i :: 6 <= i < 12 ==> df.value[i] == Row(Categories[i - 6], Competencies, lst[i])))
  {
    var df1 := Frame(Problems, Head(lst, 6));
    var df2 := Frame(Competencies, Tail(lst, 6));
    if df1.None? || df2.None? then None else Some(df1.value + df2.value)
  }

  /** The score column of a table, in row order. */
  function ScoreColumn(df: seq<Row>): (col: seq<int>)
    ensures |col| == |df| && forall i :: 0 <= i < |df| ==> col[i] == df[i].score
  {
    seq(|df|, i requires 0 <= i < |df| => df[i].score)
  }

  /** The table carries the input list unchanged as its score column. */
  lemma TableScoresAreInput(lst: seq<int>)
    requires |lst| == 12
    ensures ScoreColumn(Table(lst).value) == lst
  {
  }

  // ---------------------------------------------------------------------------
  // Per-category tiers: `np.select(conditions, tiers, default=...)`
  // ---------------------------------------------------------------------------

  /**
    `np.select` for one element: the choice paired with the first condition
    that holds, or the default when none holds.
   */
  function Select<T>(conds: seq<bool>, choices: seq<T>, default: T): (r: T)
    requires |conds| == |choices|
    ensures forall i :: 0 <= i < |conds| && conds[i] && (forall j :: 0 <= j < i ==> !conds[j]) ==> r == choices[i]
    ensures (forall i :: 0 <= i < |conds| ==> !conds[i]) ==> r == default
  {
    if conds == [] then default
    else if conds[0] then choices[0]
    else Select(conds[1..], choices[1..], default)
  }

  const Tiers: seq<string> := ["Новичок", "Падаван", "Рыцарь-Джедай", "Мастер-Джедай"]
  const UnknownTier: string := "Неизвестный уровень"

  /** The four conditions of the tier table, in order, for one score. */
  function TierConditions(x: int): (conds: seq<bool>)
    ensures |conds| == |Tiers|
  {
    [x == 0, 1 <= x <= 6, 7 <= x <= 12, 13 <= x <= 20]
  }

  /** At most one tier condition holds for any score. */
  lemma TierConditionsDisjoint(x: int, i: nat, j: nat)
    requires i < 4 && j < 4 && i != j
    ensures !(TierConditions(x)[i] && TierConditions(x)[j])
  {
  }

  /** The tier of one score: 0, 1..6, 7..12, 13..20, anything else unknown. */
  function CategoryTier(x: int): (t: string)
    ensures x == 0 ==> t == Tiers[0]
    ensures 1 <= x <= 6 ==> t == Tiers[1]
    ensures 7 <= x <= 12 ==> t == Tiers[2]
    ensures 13 <= x <= 20 ==> t == Tiers[3]
    ensures (t == UnknownTier) <==> (x < 0 || x > 20)
  {
    Select(TierConditions(x), Tiers, UnknownTier)
  }

  /**
    Since the conditions are disjoint, picking the first match is the same as
    picking any match: whichever condition holds names the tier.
   */
  lemma CategoryTierIsAnyMatch(x: int, i: nat)
    requires i < 4 && TierConditions(x)[i]
    ensures CategoryTier(x) == Tiers[i]
  {
  }

  /** The `mark` column: every row's tier, all of them one of the five labels. */
  function Marks(df: seq<Row>): (marks: seq<string>)
    ensures |marks| == |df|
    ensures forall i :: 0 <= i < |df| ==> marks[i] in Tiers + [UnknownTier]
    ensures forall i :: 0 <= i < |df| ==> (marks[i] == UnknownTier <==> !(0 <= df[i].score <= 20))
  {
    seq(|df|, i requires 0 <= i < |df| => CategoryTier(df[i].score))
  }

  // ---------------------------------------------------------------------------
  // The total and its aggregate level
  // ---------------------------------------------------------------------------

  /** `sum(lst)` */
  function Sum(lst: seq<int>): int {
    if lst == [] then 0 else Sum(lst[..|lst| - 1]) + lst[|lst| - 1]
  }

  lemma {:induction false} SumConcat(a: seq<int>, b: seq<int>)
    ensures Sum(a + b) == Sum(a) + Sum(b)
    decreases |b|
  {
    if b == [] {
      assert a + b == a;
    } else {
      assert (a + b)[..|a + b| - 1] == a + b[..|b| - 1];
      SumConcat(a, b[..|b| - 1]);
    }
  }

  /**
    The total in the title is the sum over both series of the chart: the six
    "проблемы" scores plus the six "компетенции" scores.
   */
  lemma TotalIsBothSeries(lst: seq<int>)
    requires |lst| == 12
    ensures Sum(lst) == Sum(ScoreColumn(Table(lst).value[..6])) + Sum(ScoreColumn(Table(lst).value[6..]))
  {
    var df := Table(lst).value;
    TableScoresAreInput(lst);
    ScoreColumnSplit(df, 6);
    SumSplit(lst, 6);
  }

  lemma SumSplit(s: seq<int>, k: nat)
    requires k <= |s|
    ensures Sum(s) == Sum(s[..k]) + Sum(s[k..])
  {
    assert s == s[..k] + s[k..];
    SumConcat(s[..k], s[k..]);
  }

  lemma ScoreColumnSplit(df: seq<Row>, k: nat)
    requires k <= |df|
    ensures ScoreColumn(df[..k]) == ScoreColumn(df)[..k]
    ensures ScoreColumn(df[k..]) == ScoreColumn(df)[k..]
  {
  }

  const Novice: string := "Новичок"
  const Padawan: string := "Падаван"
  const Transitioning: string := "Двигаетесь от Падавана к Рыцарю-Джедаю"
  const Knight: string := "Рыцарь-Джедай"
  const Master: string := "Мастер-Джедай"

  /** The five aggregate levels in the order of the if/elif chain. */
  const Levels: seq<string> := [Novice, Padawan, Transitioning, Knight, Master]

  /** The range of totals each level stands for; the last one is everything else. */
  predicate InLevelBand(score: int, k: nat)
    requires k < 5
  {
    match k
    case 0 => 0 <= score <= 41
    case 1 => 42 <= score <= 50
    case 2 => 51 <= score <= 70
    case 3 => 71 <= score <= 100
    case _ => score < 0 || score > 100
  }

  /** The if/elif chain over the total. */
  function AggregateLevel(score: int): (level: string)
    ensures level in Levels
    ensures score < 0 ==> level == Master
  {
    if 0 <= score <= 41 then Novice
    else if 42 <= score <= 50 then Padawan
    else if 51 <= score <= 70 then Transitioning
    else if 71 <= score <= 100 then Knight
    else Master
  }

  /** Every integer total lies in exactly one band. */
  lemma LevelBandsPartition(score: int)
    ensures exists k :: 0 <= k < 5 && InLevelBand(score, k)
    ensures forall k, l :: 0 <= k < 5 && 0 <= l < 5 && InLevelBand(score, k) && InLevelBand(score, l) ==> k == l
  {
    if 0 <= score <= 41 { assert InLevelBand(score, 0); }
    else if 42 <= score <= 50 { assert InLevelBand(score, 1); }
    else if 51 <= score <= 70 { assert InLevelBand(score, 2); }
    else if 71 <= score <= 100 { assert InLevelBand(score, 3); }
    else { assert InLevelBand(score, 4); }
  }

  /** A total gets level k exactly when it lies in band k. */
  lemma AggregateLevelIsBand(score: int, k: nat)
    requires k < 5
    ensures AggregateLevel(score) == Levels[k] <==> InLevelBand(score, k)
  {
  }

  // ---------------------------------------------------------------------------
  // Strings built from the scores
  // ---------------------------------------------------------------------------

  const TitlePrefix: string := "Всего очков: "

  /** `f"Всего очков: {score}, {level}"` */
  function Title(score: int, level: string): (t: string)
    ensures StartsWith(t, TitlePrefix)
  {
    TitlePrefix + IntToDecimal(score) + ", " + level
  }

  lemma CommaAt(a: string, x: string)
    ensures |a + ", " + x| > |a| && (a + ", " + x)[|a|] == ','
  {
  }

  lemma DecimalThenCommaInjective(a: string, x: string, b: string, y: string)
    requires forall i :: 0 < i < |a| ==> IsDigit(a[i])
    requires forall i :: 0 < i < |b| ==> IsDigit(b[i])
    requires a != [] && b != []
    requires a + ", " + x == b + ", " + y
    ensures a == b && x == y
  {
    if |a| < |b| {
      CommaAt(a, x);
    } else if |b| < |a| {
      CommaAt(b, y);
    } else {
      assert a == (a + ", " + x)[..|a|];
      assert b == (b + ", " + y)[..|b|];
      assert x == (a + ", " + x)[|a| + 2..];
      assert y == (b + ", " + y)[|b| + 2..];
    }
  }

  /** The title determines the total and the level it was made from. */
  lemma TitleInjective(s1: int, l1: string, s2: int, l2: string)
    requires Title(s1, l1) == Title(s2, l2)
    ensures s1 == s2 && l1 == l2
  {
    var a, b := IntToDecimal(s1), IntToDecimal(s2);
    assert TitlePrefix + a + ", " + l1 == TitlePrefix + (a + ", " + l1);
    assert TitlePrefix + b + ", " + l2 == TitlePrefix + (b + ", " + l2);
    assert a + ", " + l1 == (TitlePrefix + (a + ", " + l1))[|TitlePrefix|..];
    assert b + ", " + l2 == (TitlePrefix + (b + ", " + l2))[|TitlePrefix|..];
    DecimalThenCommaInjective(a, l1, b, l2);
    IntToDecimalInjective(s1, s2);
  }

  /** The f-string renders an unset `PATH_TO_IMAGES` (None) as "None". */
  function PathPrefix(imagesDir: Option<string>): (prefix: string)
    ensures imagesDir.None? ==> prefix == "None"
    ensures imagesDir.Some? ==> prefix == imagesDir.value
  {
    match imagesDir
    case None => "None"
    case Some(dir) => dir
  }

  /** `f'{PATH_TO_IMAGES}{unix_timestamp}.jpeg'` */
  function ImagePath(imagesDir: Option<string>, timestamp: nat): (path: string)
    ensures StartsWith(path, PathPrefix(imagesDir))
  {
    PathPrefix(imagesDir) + NatToDecimal(timestamp) + ".jpeg"
  }

  /**
    Two calls in different seconds write different files; two calls in the
    same second write the same one.
   */
  lemma ImagePathInjective(imagesDir: Option<string>, t1: nat, t2: nat)
    ensures ImagePath(imagesDir, t1) == ImagePath(imagesDir, t2) <==> t1 == t2
  {
    var p := PathPrefix(imagesDir);
    var a, b := NatToDecimal(t1), NatToDecimal(t2);
    if ImagePath(imagesDir, t1) == ImagePath(imagesDir, t2) {
      assert |a| == |b|;
      assert a == ImagePath(imagesDir, t1)[|p|..|p| + |a|];
      assert b == ImagePath(imagesDir, t2)[|p|..|p| + |b|];
      NatToDecimalRoundTrip(t1);
      NatToDecimalRoundTrip(t2);
    }
  }

  // ---------------------------------------------------------------------------
  // The figure, as far as it is not drawing
  // ---------------------------------------------------------------------------

  /** Radial axis of the chart as written: ticks at 0, 7, 12, 20 over the range 0..20. */
  const TickValues: seq<int> := [0, 7, 12, 20]
  const TickText: seq<string> := Tiers
  const RadialRange: (int, int) := (0, 20)

  /**
    The ticks at 12 and 20 sit at the top score of the tier they name, but
    the tick labelled "Падаван" sits at 7, a score whose tier is
    "Рыцарь-Джедай".
   */
  lemma TickAtSevenMislabelled()
    ensures |TickText| == |TickValues| == 4
    ensures CategoryTier(TickValues[1]) != TickText[1]
    ensures CategoryTier(TickValues[2]) == TickText[2] && CategoryTier(TickValues[3]) == TickText[3]
  {
  }

  /** The axis with every tick at the top score of its tier: 0, 6, 12, 20. */
  const BandTopTicks: seq<int> := [0, 6, 12, 20]

  /**
    Each corrected tick lies in the range, has the tier it is labelled with,
    and the next score up already has a different tier.
   */
  lemma BandTopTicksLabelTheirTier(i: nat)
    requires i < |BandTopTicks|
    ensures |TickText| == |BandTopTicks|
    ensures RadialRange.0 <= BandTopTicks[i] <= RadialRange.1
    ensures CategoryTier(BandTopTicks[i]) == TickText[i]
    ensures CategoryTier(BandTopTicks[i] + 1) != TickText[i]
  {
  }

  /** What the figure shows: the table with its marks and the title. */
  datatype Figure = Figure(table: seq<Row>, marks: seq<string>, title: string)

  /**
    Lines 106-154 of the routine: the table, the marks, the total, its level
    and the title; None when the table cannot be built.
   */
  function BuildFigure(lst: seq<int>): (fig: Option<Figure>)
    ensures fig.Some? <==> |lst| == 12
  {
    match Table(lst)
    case None => None
    case Some(df) =>
      var score := Sum(lst);
      Some(Figure(df, Marks(df), Title(score, AggregateLevel(score))))
  }

  /**
    The figure plots the input scores, marks each with its tier and is
    titled with the total and the total's level.
   */
  lemma FigureShowsScores(lst: seq<int>)
    requires |lst| == 12
    ensures var fig := BuildFigure(lst).value;
      ScoreColumn(fig.table) == lst &&
      |fig.marks| == 12 &&
      (forall i :: 0 <= i < 12 ==> fig.marks[i] == CategoryTier(lst[i])) &&
      fig.title == Title(Sum(lst), AggregateLevel(Sum(lst)))
  {
    var df := Table(lst).value;
    assert BuildFigure(lst).value == Figure(df, Marks(df), Title(Sum(lst), AggregateLevel(Sum(lst))));
    TableScoresAreInput(lst);
  }
}
