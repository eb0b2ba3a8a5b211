/**
 * `analyze_file`: route one uploaded settlement file to the adapter its
 * name selects and reduce its rows to the six tax buckets, or to a message
 * saying why not.  Failures are returned as text, never raised.
 */
module Marketplace {
  import opened Wrappers
  import opened Amount
  import opened Tax
  import opened Frame

  /** Filename tokens selecting an adapter, checked in this order. */
  const SmartStoreToken: string := "스마트스토어"
  const CoupangToken: string := "쿠팡"

  /** The messages that stand in for a result. */
  const ReadFailure: string := "읽기 실패 (인코딩 확인 필요)"
  const Unsupported: string := "미지원 양식"
  const AnalysisErrorPrefix: string := "분석 오류: "

  /** SmartStore columns, in the order the adapter first looks each one up. */
  const TaxableSales: string := "과세매출"
  const ExemptSales: string := "면세매출"
  const CardSlip: string := "신용카드매출전표"
  const CashDeduction: string := "현금(소득공제)"
  const CashEvidence: string := "현금(지출증빙)"
  const OtherPayment: string := "기타"
  const SmartStoreColumns: seq<string> :=
    [TaxableSales, ExemptSales, CardSlip, CashDeduction, CashEvidence, OtherPayment]

  /** Coupang columns; the three refund columns are optional. */
  const CardSale: string := "신용카드(판매)"
  const CashSale: string := "현금(판매)"
  const OtherSale: string := "기타(판매)"
  const CardRefund: string := "신용카드(환불)"
  const CashRefund: string := "현금(환불)"
  const OtherRefund: string := "기타(환불)"
  const TaxType: string := "과세유형"
  const CoupangColumns: seq<string> := [CardSale, CashSale, OtherSale, TaxType]

  /**
   * An uploaded file: its name and what the encoding-retrying CSV reader made
   * of its bytes (None when no encoding worked).
   */
  datatype Upload = Upload(name: string, content: Option<Table>)

  /** What `analyze_file` returns: the six buckets, or a message string. */
  datatype FileResult = Summary(buckets: Buckets) | Message(text: string)

  /** Python's `token in name`. */
  predicate Contains(name: string, token: string)
    decreases |name|
  {
    |token| <= |name| && (name[..|token|] == token || Contains(name[1..], token))
  }

  /** `token` occurs in `name` starting at position `i`. */
  predicate OccursAt(name: string, token: string, i: int) {
    0 <= i <= |name| - |token| && name[i..i + |token|] == token
  }

  /** `token in name` holds exactly when `token` occurs at some position of `name`. */
  lemma {:induction false} ContainsSpec(name: string, token: string)
    ensures Contains(name, token) <==> exists i :: OccursAt(name, token, i)
    decreases |name|
  {
    if |token| > |name| {
      assert forall i :: !OccursAt(name, token, i);
    } else if name[..|token|] == token {
      assert OccursAt(name, token, 0);
    } else {
      ContainsSpec(name[1..], token);
      if i :| OccursAt(name, token, i) {
        assert name[1..][i - 1..i - 1 + |token|] == name[i..i + |token|];
        assert OccursAt(name[1..], token, i - 1);
      }
      if j :| OccursAt(name[1..], token, j) {
        assert name[j + 1..j + 1 + |token|] == name[1..][j..j + |token|];
        assert OccursAt(name, token, j + 1);
      }
    }
  }

  /** The message for a column lookup that failed: `str(KeyError(col))` quotes the name. */
  function MissingColumnMessage(col: string): string {
    AnalysisErrorPrefix + "'" + col + "'"
  }

  predicate IsAnalysisError(text: string) {
    |AnalysisErrorPrefix| <= |text| && text[..|AnalysisErrorPrefix|] == AnalysisErrorPrefix
  }

  /** The three kinds of message are told apart by their first word. */
  lemma MessagesDistinct(col: string)
    ensures IsAnalysisError(MissingColumnMessage(col))
    ensures !IsAnalysisError(ReadFailure) && !IsAnalysisError(Unsupported) && ReadFailure != Unsupported
  {
    var m := MissingColumnMessage(col);
    assert m[..|AnalysisErrorPrefix|] == AnalysisErrorPrefix;
    assert ReadFailure[0] != AnalysisErrorPrefix[0];
    assert Unsupported[0] != AnalysisErrorPrefix[0];
    assert ReadFailure[0] != Unsupported[0];
  }

  // ---------------------------------------------------------------- SmartStore

  /** The columns SmartStore converts with `to_num` (all of its columns). */
  const SmartStoreNumeric: set<string> :=
    {TaxableSales, ExemptSales, CardSlip, CashDeduction, CashEvidence, OtherPayment}

  predicate TaxableRow(row: Row) {
    CellAmount(row, TaxableSales) > 0
  }

  predicate ExemptRow(row: Row) {
    CellAmount(row, ExemptSales) > 0
  }

  /**
   * The SmartStore reduction as the source writes it, over converted rows:
   * keep the rows with positive taxable (exempt) sales, then sum the card
   * column, both cash columns and the other column over each kept frame.
   */
  function SmartStoreBuckets(rows: seq<Row>): Buckets {
    var taxed := Where(rows, Positive(TaxableSales));
    var exempt := Where(rows, Positive(ExemptSales));
    Buckets(Sum(taxed, Column(CardSlip)),
            Sum(taxed, Column(CashDeduction)) + Sum(taxed, Column(CashEvidence)),
            Sum(taxed, Column(OtherPayment)),
            Sum(exempt, Column(CardSlip)),
            Sum(exempt, Column(CashDeduction)) + Sum(exempt, Column(CashEvidence)),
            Sum(exempt, Column(OtherPayment)))
  }

  /** The SmartStore reduction of raw rows: convert the six columns, then reduce. */
  function SmartStoreOf(rows: seq<Row>): Buckets {
    SmartStoreBuckets(ConvertRows(rows, SmartStoreNumeric))
  }

  /**
   * How one row's payments split: card, cash (the deduction and the evidence
   * receipts together) and other go in full to the taxable side when the
   * taxable sales are positive, in full to the exempt side when the exempt
   * sales are positive, to both when both are, and nowhere otherwise.
   */
  function SplitPayments(taxable: int, exempt: int, card: int, deduction: int, evidence: int, other: int): Buckets {
    var cash := deduction + evidence;
    (if taxable > 0 then Side(Taxable, card, cash, other) else Zero)
      .Plus(if exempt > 0 then Side(Exempt, card, cash, other) else Zero)
  }

  /** What one raw SmartStore row is worth, stated row by row. */
  function SmartStoreShare(row: Row): Buckets {
    SplitPayments(CellAmount(row, TaxableSales), CellAmount(row, ExemptSales), CellAmount(row, CardSlip),
                  CellAmount(row, CashDeduction), CellAmount(row, CashEvidence), CellAmount(row, OtherPayment))
  }

  /**
   * The SmartStore adapter: convert the columns it has, then either name the
   * first required column that is missing or reduce the rows.
   */
  function SmartStore(t: Table): (r: FileResult)
    ensures r.Summary? <==> forall c :: c in SmartStoreColumns ==> c in t.columns
    ensures r.Summary? ==> r.buckets == SmartStoreOf(t.rows)
    ensures r.Message? ==> exists c :: c in SmartStoreColumns && c !in t.columns && r.text == MissingColumnMessage(c)
  {
    var numeric := Present(SmartStoreColumns, t.columns);
    FirstMissingSpec(t.columns, SmartStoreColumns);
    match FirstMissing(t.columns, SmartStoreColumns)
    case Some(col) => Message(MissingColumnMessage(col))
    case None =>
      assert numeric == SmartStoreNumeric;
      Summary(SmartStoreBuckets(ConvertRows(t.rows, numeric)))
  }

  /** Helper: one side's four column sums split over a concatenation of converted rows. */
  lemma SmartStoreSideAdditive(a: seq<Row>, b: seq<Row>, cond: Condition)
    ensures Sum(Where(a + b, cond), Column(CardSlip))
         == Sum(Where(a, cond), Column(CardSlip)) + Sum(Where(b, cond), Column(CardSlip))
    ensures Sum(Where(a + b, cond), Column(CashDeduction))
         == Sum(Where(a, cond), Column(CashDeduction)) + Sum(Where(b, cond), Column(CashDeduction))
    ensures Sum(Where(a + b, cond), Column(CashEvidence))
         == Sum(Where(a, cond), Column(CashEvidence)) + Sum(Where(b, cond), Column(CashEvidence))
    ensures Sum(Where(a + b, cond), Column(OtherPayment))
         == Sum(Where(a, cond), Column(OtherPayment)) + Sum(Where(b, cond), Column(OtherPayment))
  {
    FilteredSumAppend(a, b, cond, Column(CardSlip));
    FilteredSumAppend(a, b, cond, Column(CashDeduction));
    FilteredSumAppend(a, b, cond, Column(CashEvidence));
    FilteredSumAppend(a, b, cond, Column(OtherPayment));
  }

  /** Helper: the reduction of converted rows splits over a concatenation. */
  lemma SmartStoreBucketsAdditive(a: seq<Row>, b: seq<Row>)
    ensures SmartStoreBuckets(a + b) == SmartStoreBuckets(a).Plus(SmartStoreBuckets(b))
  {
    SmartStoreSideAdditive(a, b, Positive(TaxableSales));
    SmartStoreSideAdditive(a, b, Positive(ExemptSales));
    var whole, left, right := SmartStoreBuckets(a + b), SmartStoreBuckets(a), SmartStoreBuckets(b);
    assert whole.taxableCard == left.taxableCard + right.taxableCard;
    assert whole.taxableCash == left.taxableCash + right.taxableCash;
    assert whole.taxableOther == left.taxableOther + right.taxableOther;
    assert whole.exemptCard == left.exemptCard + right.exemptCard;
    assert whole.exemptCash == left.exemptCash + right.exemptCash;
    assert whole.exemptOther == left.exemptOther + right.exemptOther;
    PlusByFields(left, right, whole);
  }

  /** The SmartStore reduction of a file is the sum of its two parts' reductions. */
  lemma SmartStoreAdditive(a: seq<Row>, b: seq<Row>)
    ensures SmartStoreOf(a + b) == SmartStoreOf(a).Plus(SmartStoreOf(b))
  {
    ConvertRowsAppend(a, b, SmartStoreNumeric);
    SmartStoreBucketsAdditive(ConvertRows(a, SmartStoreNumeric), ConvertRows(b, SmartStoreNumeric));
  }

  /** Helper: one converted row's four column sums on one side. */
  lemma SmartStoreSideSingle(row: Row, cond: Condition)
    ensures Sum(Where([row], cond), Column(CardSlip)) == if Holds(cond, row) then NumericAt(row, CardSlip) else 0
    ensures Sum(Where([row], cond), Column(CashDeduction)) == if Holds(cond, row) then NumericAt(row, CashDeduction) else 0
    ensures Sum(Where([row], cond), Column(CashEvidence)) == if Holds(cond, row) then NumericAt(row, CashEvidence) else 0
    ensures Sum(Where([row], cond), Column(OtherPayment)) == if Holds(cond, row) then NumericAt(row, OtherPayment) else 0
  {
    FilteredSumSingle(row, cond, Column(CardSlip));
    FilteredSumSingle(row, cond, Column(CashDeduction));
    FilteredSumSingle(row, cond, Column(CashEvidence));
    FilteredSumSingle(row, cond, Column(OtherPayment));
  }

  /** Helper: a single converted row reduces to its split payments. */
  lemma SmartStoreBucketsSingle(row: Row)
    ensures SmartStoreBuckets([row])
         == SplitPayments(NumericAt(row, TaxableSales), NumericAt(row, ExemptSales), NumericAt(row, CardSlip),
                          NumericAt(row, CashDeduction), NumericAt(row, CashEvidence), NumericAt(row, OtherPayment))
  {
    SmartStoreSideSingle(row, Positive(TaxableSales));
    SmartStoreSideSingle(row, Positive(ExemptSales));
    var b := SmartStoreBuckets([row]);
    var card, cash, other := NumericAt(row, CardSlip), NumericAt(row, CashDeduction) + NumericAt(row, CashEvidence), NumericAt(row, OtherPayment);
    var taxed, exempt := NumericAt(row, TaxableSales) > 0, NumericAt(row, ExemptSales) > 0;
    assert b.taxableCard == if taxed then card else 0;
    assert b.taxableCash == if taxed then cash else 0;
    assert b.taxableOther == if taxed then other else 0;
    assert b.exemptCard == if exempt then card else 0;
    assert b.exemptCash == if exempt then cash else 0;
    assert b.exemptOther == if exempt then other else 0;
  }

  /** A single raw row reduces to exactly its row-by-row share. */
  lemma SmartStoreSingleRow(row: Row)
    ensures SmartStoreOf([row]) == SmartStoreShare(row)
  {
    var converted := ConvertRow(row, SmartStoreNumeric);
    ConvertRowsSingle(row, SmartStoreNumeric);
    SmartStoreBucketsSingle(converted);
    ConvertRowSpec(row, SmartStoreNumeric, TaxableSales);
    ConvertRowSpec(row, SmartStoreNumeric, ExemptSales);
    ConvertRowSpec(row, SmartStoreNumeric, CardSlip);
    ConvertRowSpec(row, SmartStoreNumeric, CashDeduction);
    ConvertRowSpec(row, SmartStoreNumeric, CashEvidence);
    ConvertRowSpec(row, SmartStoreNumeric, OtherPayment);
  }

  /** One more row adds exactly its row-by-row share. */
  lemma SmartStoreAppendRow(rows: seq<Row>, row: Row)
    ensures SmartStoreOf(rows + [row]) == SmartStoreOf(rows).Plus(SmartStoreShare(row))
  {
    SmartStoreAdditive(rows, [row]);
    SmartStoreSingleRow(row);
  }

  /** A row with both taxable and exempt sales positive is counted in full on both sides, not split. */
  lemma SmartStoreDoubleCount(rows: seq<Row>, row: Row)
    requires TaxableRow(row) && ExemptRow(row)
    ensures forall c :: SmartStoreOf(rows + [row]).At(c, Card) == SmartStoreOf(rows).At(c, Card) + CellAmount(row, CardSlip)
    ensures forall c :: SmartStoreOf(rows + [row]).At(c, Cash)
                     == SmartStoreOf(rows).At(c, Cash) + CellAmount(row, CashDeduction) + CellAmount(row, CashEvidence)
    ensures forall c :: SmartStoreOf(rows + [row]).At(c, Other) == SmartStoreOf(rows).At(c, Other) + CellAmount(row, OtherPayment)
  {
    SmartStoreAppendRow(rows, row);
  }

  /** A row with neither taxable nor exempt sales positive changes nothing, wherever it stands. */
  /** A row with neither sales column positive has no share in any bucket. */
  lemma UnsoldShareIsZero(row: Row)
    requires !TaxableRow(row) && !ExemptRow(row)
    ensures SmartStoreShare(row) == Zero
  {
  }

  lemma SmartStoreIgnoresUnsoldRow(a: seq<Row>, row: Row, b: seq<Row>)
    requires !TaxableRow(row) && !ExemptRow(row)
    ensures SmartStoreOf(a + [row] + b) == SmartStoreOf(a + b)
  {
    UnsoldShareIsZero(row);
    SmartStoreAppendRow(a, row);
    PlusZero(SmartStoreOf(a));
    SmartStoreAdditive(a + [row], b);
    SmartStoreAdditive(a, b);
  }

  // ---------------------------------------------------------------- Coupang

  /** The columns Coupang converts with `to_num` when present, in the source's order. */
  const CoupangNumeric: seq<string> := [CardSale, CashSale, OtherSale, CardRefund, CashRefund, OtherRefund]

  /** `df.get(col, 0)`: the refund column when the file has it, otherwise nothing to subtract. */
  function Optional(columns: seq<string>, col: string): Option<string> {
    if col in columns then Some(col) else None
  }

  /**
   * The Coupang reduction as the source writes it, over converted rows: per
   * channel sale minus refund, then the rows tagged `TAX` and `FREE` summed
   * separately.
   */
  function CoupangBuckets(columns: seq<string>, rows: seq<Row>): Buckets {
    var card := Net(CardSale, Optional(columns, CardRefund));
    var cash := Net(CashSale, Optional(columns, CashRefund));
    var other := Net(OtherSale, Optional(columns, OtherRefund));
    var taxed := Where(rows, Tagged(TaxType, "TAX"));
    var exempt := Where(rows, Tagged(TaxType, "FREE"));
    Buckets(Sum(taxed, card), Sum(taxed, cash), Sum(taxed, other),
            Sum(exempt, card), Sum(exempt, cash), Sum(exempt, other))
  }

  /** The Coupang reduction of raw rows: convert the amount columns the file has, then reduce. */
  function CoupangOf(columns: seq<string>, rows: seq<Row>): Buckets {
    CoupangBuckets(columns, ConvertRows(rows, Present(CoupangNumeric, columns)))
  }

  /** A refund column the file lacks counts as 0. */
  function RefundAmount(columns: seq<string>, row: Row, col: string): int {
    if col in columns then CellAmount(row, col) else 0
  }

  /**
   * How one Coupang row splits: each channel's sale less its refund, all on
   * the taxable side for a tax type of exactly `TAX`, all on the exempt side
   * for exactly `FREE`, and nothing for any other value or a missing one.
   */
  function SplitNet(taxType: Cell, cardSale: int, cardRefund: int, cashSale: int, cashRefund: int,
                    otherSale: int, otherRefund: int): Buckets {
    var card, cash, other := cardSale - cardRefund, cashSale - cashRefund, otherSale - otherRefund;
    if taxType == Text("TAX") then Side(Taxable, card, cash, other)
    else if taxType == Text("FREE") then Side(Exempt, card, cash, other)
    else Zero
  }

  /** What one raw Coupang row is worth, stated row by row. */
  function CoupangShare(columns: seq<string>, row: Row): Buckets {
    SplitNet(Get(row, TaxType),
             CellAmount(row, CardSale), RefundAmount(columns, row, CardRefund),
             CellAmount(row, CashSale), RefundAmount(columns, row, CashRefund),
             CellAmount(row, OtherSale), RefundAmount(columns, row, OtherRefund))
  }

  /**
   * The Coupang adapter: convert the amount columns it has, then either name
   * the first required column that is missing or reduce the rows.
   */
  function Coupang(t: Table): (r: FileResult)
    ensures r.Summary? <==> forall c :: c in CoupangColumns ==> c in t.columns
    ensures r.Summary? ==> r.buckets == CoupangOf(t.columns, t.rows)
    ensures r.Message? ==> exists c :: c in CoupangColumns && c !in t.columns && r.text == MissingColumnMessage(c)
  {
    FirstMissingSpec(t.columns, CoupangColumns);
    match FirstMissing(t.columns, CoupangColumns)
    case Some(col) => Message(MissingColumnMessage(col))
    case None => Summary(CoupangBuckets(t.columns, ConvertRows(t.rows, Present(CoupangNumeric, t.columns))))
  }

  /** The Coupang reduction of a file is the sum of its two parts' reductions. */
  lemma CoupangAdditive(columns: seq<string>, a: seq<Row>, b: seq<Row>)
    ensures CoupangOf(columns, a + b) == CoupangOf(columns, a).Plus(CoupangOf(columns, b))
  {
    var numeric := Present(CoupangNumeric, columns);
    ConvertRowsAppend(a, b, numeric);
    CoupangBucketsAdditive(columns, ConvertRows(a, numeric), ConvertRows(b, numeric));
  }

  /** Helper: the reduction of converted rows splits over a concatenation. */
  lemma CoupangBucketsAdditive(columns: seq<string>, a: seq<Row>, b: seq<Row>)
    ensures CoupangBuckets(columns, a + b) == CoupangBuckets(columns, a).Plus(CoupangBuckets(columns, b))
  {
    var card := Net(CardSale, Optional(columns, CardRefund));
    var cash := Net(CashSale, Optional(columns, CashRefund));
    var other := Net(OtherSale, Optional(columns, OtherRefund));
    var taxed, exempt := Tagged(TaxType, "TAX"), Tagged(TaxType, "FREE");
    FilteredSumAppend(a, b, taxed, card);
    FilteredSumAppend(a, b, taxed, cash);
    FilteredSumAppend(a, b, taxed, other);
    FilteredSumAppend(a, b, exempt, card);
    FilteredSumAppend(a, b, exempt, cash);
    FilteredSumAppend(a, b, exempt, other);
    var whole, left, right := CoupangBuckets(columns, a + b), CoupangBuckets(columns, a), CoupangBuckets(columns, b);
    assert whole.taxableCard == left.taxableCard + right.taxableCard;
    assert whole.taxableCash == left.taxableCash + right.taxableCash;
    assert whole.taxableOther == left.taxableOther + right.taxableOther;
    assert whole.exemptCard == left.exemptCard + right.exemptCard;
    assert whole.exemptCash == left.exemptCash + right.exemptCash;
    assert whole.exemptOther == left.exemptOther + right.exemptOther;
    PlusByFields(left, right, whole);
  }

  /** Helper: one converted row's three net sums on one side. */
  lemma CoupangSideSingle(columns: seq<string>, row: Row, cond: Condition)
    ensures var m := Net(CardSale, Optional(columns, CardRefund));
      Sum(Where([row], cond), m) == if Holds(cond, row) then Value(m, row) else 0
    ensures var m := Net(CashSale, Optional(columns, CashRefund));
      Sum(Where([row], cond), m) == if Holds(cond, row) then Value(m, row) else 0
    ensures var m := Net(OtherSale, Optional(columns, OtherRefund));
      Sum(Where([row], cond), m) == if Holds(cond, row) then Value(m, row) else 0
  {
    FilteredSumSingle(row, cond, Net(CardSale, Optional(columns, CardRefund)));
    FilteredSumSingle(row, cond, Net(CashSale, Optional(columns, CashRefund)));
    FilteredSumSingle(row, cond, Net(OtherSale, Optional(columns, OtherRefund)));
  }

  /** Helper: a single converted row reduces to its net split. */
  lemma CoupangBucketsSingle(columns: seq<string>, row: Row)
    ensures CoupangBuckets(columns, [row])
         == SplitNet(Get(row, TaxType),
                     NumericAt(row, CardSale), OptionalAt(row, Optional(columns, CardRefund)),
                     NumericAt(row, CashSale), OptionalAt(row, Optional(columns, CashRefund)),
                     NumericAt(row, OtherSale), OptionalAt(row, Optional(columns, OtherRefund)))
  {
    CoupangSideSingle(columns, row, Tagged(TaxType, "TAX"));
    CoupangSideSingle(columns, row, Tagged(TaxType, "FREE"));
    var b := CoupangBuckets(columns, [row]);
    var card := NumericAt(row, CardSale) - OptionalAt(row, Optional(columns, CardRefund));
    var cash := NumericAt(row, CashSale) - OptionalAt(row, Optional(columns, CashRefund));
    var other := NumericAt(row, OtherSale) - OptionalAt(row, Optional(columns, OtherRefund));
    var taxed, exempt := Get(row, TaxType) == Text("TAX"), Get(row, TaxType) == Text("FREE");
    assert b.taxableCard == if taxed then card else 0;
    assert b.taxableCash == if taxed then cash else 0;
    assert b.taxableOther == if taxed then other else 0;
    assert b.exemptCard == if exempt then card else 0;
    assert b.exemptCash == if exempt then cash else 0;
    assert b.exemptOther == if exempt then other else 0;
  }

  /** Helper: after conversion an optional refund column reads as the raw refund amount. */
  lemma RefundConverted(columns: seq<string>, row: Row, refund: string)
    requires refund in CoupangNumeric
    ensures OptionalAt(ConvertRow(row, Present(CoupangNumeric, columns)), Optional(columns, refund))
         == RefundAmount(columns, row, refund)
  {
    ConvertRowSpec(row, Present(CoupangNumeric, columns), refund);
  }

  /** A single raw row of a file with the sale columns reduces to exactly its row-by-row share. */
  lemma CoupangSingleRow(columns: seq<string>, row: Row)
    requires CardSale in columns && CashSale in columns && OtherSale in columns
    ensures CoupangOf(columns, [row]) == CoupangShare(columns, row)
  {
    var numeric := Present(CoupangNumeric, columns);
    var converted := ConvertRow(row, numeric);
    ConvertRowsSingle(row, numeric);
    CoupangBucketsSingle(columns, converted);
    ConvertRowSpec(row, numeric, CardSale);
    ConvertRowSpec(row, numeric, CashSale);
    ConvertRowSpec(row, numeric, OtherSale);
    RefundConverted(columns, row, CardRefund);
    RefundConverted(columns, row, CashRefund);
    RefundConverted(columns, row, OtherRefund);
    assert TaxType !in numeric;
    ConvertRowSpec(row, numeric, TaxType);
  }

  /** One more row adds exactly its row-by-row share. */
  lemma CoupangAppendRow(columns: seq<string>, rows: seq<Row>, row: Row)
    requires CardSale in columns && CashSale in columns && OtherSale in columns
    ensures CoupangOf(columns, rows + [row]) == CoupangOf(columns, rows).Plus(CoupangShare(columns, row))
  {
    CoupangAdditive(columns, rows, [row]);
    CoupangSingleRow(columns, row);
  }

  /** A row whose tax type is neither exactly `TAX` nor exactly `FREE` changes nothing, wherever it stands. */
  /** A row not tagged exactly `TAX` or `FREE` has no share in any bucket. */
  lemma UntaggedShareIsZero(columns: seq<string>, row: Row)
    requires Get(row, TaxType) != Text("TAX") && Get(row, TaxType) != Text("FREE")
    ensures CoupangShare(columns, row) == Zero
  {
  }

  lemma CoupangIgnoresUntaggedRow(columns: seq<string>, a: seq<Row>, row: Row, b: seq<Row>)
    requires CardSale in columns && CashSale in columns && OtherSale in columns
    requires Get(row, TaxType) != Text("TAX") && Get(row, TaxType) != Text("FREE")
    ensures CoupangOf(columns, a + [row] + b) == CoupangOf(columns, a + b)
  {
    UntaggedShareIsZero(columns, row);
    CoupangAppendRow(columns, a, row);
    PlusZero(CoupangOf(columns, a));
    CoupangAdditive(columns, a + [row], b);
    CoupangAdditive(columns, a, b);
  }

  /**
   * Refund netting: a `TAX` row with a card sale of 10000 and a card refund
   * of 3000 adds 7000 to the taxable card bucket, not 10000 or 13000.
   */
  lemma CoupangRefundExample(columns: seq<string>, rows: seq<Row>, row: Row)
    requires CardSale in columns && CashSale in columns && OtherSale in columns && CardRefund in columns
    requires Get(row, TaxType) == Text("TAX")
    requires Get(row, CardSale) == Num(10000) && Get(row, CardRefund) == Num(3000)
    ensures CoupangOf(columns, rows + [row]).taxableCard == CoupangOf(columns, rows).taxableCard + 7000
  {
    CoupangAppendRow(columns, rows, row);
  }

  /** Without a refund column a channel contributes its sale amount alone. */
  lemma CoupangMissingRefund(columns: seq<string>, rows: seq<Row>, row: Row)
    requires CardSale in columns && CashSale in columns && OtherSale in columns && CardRefund !in columns
    requires Get(row, TaxType) == Text("TAX")
    ensures CoupangOf(columns, rows + [row]).taxableCard == CoupangOf(columns, rows).taxableCard + CellAmount(row, CardSale)
  {
    CoupangAppendRow(columns, rows, row);
  }

  // ---------------------------------------------------------------- dispatch

  /**
   * `analyze_file`: an unreadable file fails before its name is looked at; a
   * SmartStore name wins over a Coupang name; any other name is unsupported.
   */
  function Analyze(u: Upload): (r: FileResult)
    ensures r == Message(ReadFailure) <==> u.content.None?
    ensures r == Message(Unsupported) <==>
      u.content.Some? && !Contains(u.name, SmartStoreToken) && !Contains(u.name, CoupangToken)
    ensures u.content.Some? && Contains(u.name, SmartStoreToken) ==> r == SmartStore(u.content.value)
    ensures u.content.Some? && !Contains(u.name, SmartStoreToken) && Contains(u.name, CoupangToken)
            ==> r == Coupang(u.content.value)
    ensures r.Message? ==> r.text == ReadFailure || r.text == Unsupported || IsAnalysisError(r.text)
  {
    MessagesDistinct("");
    match u.content
    case None => Message(ReadFailure)
    case Some(t) =>
      if Contains(u.name, SmartStoreToken) then SmartStore(t)
      else if Contains(u.name, CoupangToken) then Coupang(t)
      else Message(Unsupported)
  }
}
