/** The financial collection (`KeuanganGenerator`): revenue_summary for
    every programme and period, payment_analysis for every faculty, payment
    method and period, and financial_kpi for every period and faculty.
    None of the three reads a parent table, and none uses its `count`. */
module Keuangan {
  import opened Seqs
  import opened Catalog
  import opened Datamart

  const Periods: seq<string> := ["2024-1", "2024-2"]
  const PaymentMethods: seq<string> := ["Transfer Bank", "Virtual Account", "Kartu Kredit", "E-wallet", "Cash"]

  // ---------------------------------------------------------------------
  // revenue_summary

  datatype RevenueDraw = RevenueDraw(totalTagihan: int, collectionRate: real, jumlahMahasiswa: int)

  predicate ValidRevenueDraw(d: RevenueDraw) {
    500000000 <= d.totalTagihan <= 2000000000 && 75.0 <= d.collectionRate <= 95.0
    && 50 <= d.jumlahMahasiswa <= 200
  }

  predicate ValidProgrammeRevenueDraws(ds: seq<RevenueDraw>) {
    |ds| == |Periods| && forall k :: 0 <= k < |Periods| ==> ValidRevenueDraw(ds[k])
  }

  predicate ValidFacultyRevenueDraws(fi: nat, ds: seq<seq<RevenueDraw>>)
    requires fi < |Faculties|
  {
    |ds| == |Programmes(fi)| && forall p :: 0 <= p < |ds| ==> ValidProgrammeRevenueDraws(ds[p])
  }

  predicate ValidRevenueDraws(draws: seq<seq<seq<RevenueDraw>>>) {
    |draws| == |Faculties| && forall f :: 0 <= f < |Faculties| ==> ValidFacultyRevenueDraws(f, draws[f])
  }

  /** The amount collected is the bill times the collection rate; the rest
      is outstanding. */
  function RevenueRow(fakultas: string, prodi: string, periode: string, d: RevenueDraw): RevenueSummary {
    var terbayar := d.totalTagihan as real * (d.collectionRate / 100.0);
    RevenueSummary(
      periode, fakultas, prodi, "SPP", d.totalTagihan, terbayar, d.totalTagihan as real - terbayar,
      d.jumlahMahasiswa, d.collectionRate, TahunAkademik)
  }

  /** Innermost loop: one row per period. */
  function ProgrammeRevenue(fakultas: string, prodi: string, ds: seq<RevenueDraw>): seq<RevenueSummary>
    requires ValidProgrammeRevenueDraws(ds)
  {
    seq(|Periods|, k requires 0 <= k < |Periods| => RevenueRow(fakultas, prodi, Periods[k], ds[k]))
  }

  function FacultyRevenueBlocks(fi: nat, ds: seq<seq<RevenueDraw>>): seq<seq<RevenueSummary>>
    requires fi < |Faculties| && ValidFacultyRevenueDraws(fi, ds)
  {
    seq(|ds|, p requires 0 <= p < |ds| => ProgrammeRevenue(Faculties[fi], Programmes(fi)[p], ds[p]))
  }

  function RevenueBlocks(draws: seq<seq<seq<RevenueDraw>>>): seq<seq<RevenueSummary>>
    requires ValidRevenueDraws(draws)
  {
    seq(|Faculties|, f requires 0 <= f < |Faculties| => Concat(FacultyRevenueBlocks(f, draws[f])))
  }

  /** Everything `generate_revenue_summary` appends. */
  function RevenueRows(draws: seq<seq<seq<RevenueDraw>>>): seq<RevenueSummary>
    requires ValidRevenueDraws(draws)
  {
    Concat(RevenueBlocks(draws))
  }

  method AppendProgrammeRevenue(data: seq<RevenueSummary>, fakultas: string, prodi: string, ds: seq<RevenueDraw>)
    returns (out: seq<RevenueSummary>)
    requires ValidProgrammeRevenueDraws(ds)
    ensures out == data + ProgrammeRevenue(fakultas, prodi, ds)
  {
    out := data;
    for k := 0 to |Periods|
      invariant out == data + ProgrammeRevenue(fakultas, prodi, ds)[..k]
    {
      out := out + [RevenueRow(fakultas, prodi, Periods[k], ds[k])];
    }
  }

  method AppendFacultyRevenue(data: seq<RevenueSummary>, fi: nat, ds: seq<seq<RevenueDraw>>)
    returns (out: seq<RevenueSummary>)
    requires fi < |Faculties| && ValidFacultyRevenueDraws(fi, ds)
    ensures out == data + Concat(FacultyRevenueBlocks(fi, ds))
  {
    var blocks := FacultyRevenueBlocks(fi, ds);
    out := data;
    for p := 0 to |ds|
      invariant out == data + Concat(blocks[..p])
    {
      ConcatStep(blocks, p);
      out := AppendProgrammeRevenue(out, Faculties[fi], Programmes(fi)[p], ds[p]);
    }
    assert blocks[..|ds|] == blocks;
  }

  /** The three nested loops of `generate_revenue_summary`. */
  method BuildRevenueRows(draws: seq<seq<seq<RevenueDraw>>>) returns (data: seq<RevenueSummary>)
    requires ValidRevenueDraws(draws)
    ensures data == RevenueRows(draws)
  {
    var blocks := RevenueBlocks(draws);
    data := [];
    for f := 0 to |Faculties|
      invariant data == Concat(blocks[..f])
    {
      ConcatStep(blocks, f);
      data := AppendFacultyRevenue(data, f, draws[f]);
    }
    assert blocks[..|Faculties|] == blocks;
  }

  lemma FacultyRevenueCount(fi: nat, ds: seq<seq<RevenueDraw>>)
    requires fi < |Faculties| && ValidFacultyRevenueDraws(fi, ds)
    ensures |Concat(FacultyRevenueBlocks(fi, ds))| == 2 * |Programmes(fi)|
  {
    ConcatUniform(FacultyRevenueBlocks(fi, ds), 2);
  }

  lemma {:induction false} RevenueBlocksLength(draws: seq<seq<seq<RevenueDraw>>>, n: nat)
    requires ValidRevenueDraws(draws) && n <= |Faculties|
    ensures TotalLength(RevenueBlocks(draws)[..n]) == 2 * ProgrammesBefore(n)
  {
    if n > 0 {
      var blocks := RevenueBlocks(draws);
      assert blocks[..n][..n - 1] == blocks[..n - 1];
      RevenueBlocksLength(draws, n - 1);
      FacultyRevenueCount(n - 1, draws[n - 1]);
    }
  }

  /** Two rows for each of the 16 programmes: 32, whatever `count` says. */
  lemma RevenueCount(draws: seq<seq<seq<RevenueDraw>>>)
    requires ValidRevenueDraws(draws)
    ensures |RevenueRows(draws)| == 32
  {
    var blocks := RevenueBlocks(draws);
    ConcatLength(blocks);
    RevenueBlocksLength(draws, |Faculties|);
    assert blocks[..|Faculties|] == blocks;
    assert TotalProgrammes() == 16;
  }

  /** The collected share of a bill at a collection rate of 75% to 95%. */
  lemma CollectedShare(t: int, rate: real, collected: real)
    requires t >= 0 && 75.0 <= rate <= 95.0 && collected == t as real * (rate / 100.0)
    ensures 0.75 * (t as real) <= collected <= 0.95 * (t as real)
  {
    assert collected == (t as real * rate) / 100.0;
    assert 75.0 * (t as real) <= t as real * rate <= 95.0 * (t as real);
  }

  lemma RevenueRowBalances(fakultas: string, prodi: string, periode: string, d: RevenueDraw)
    requires ValidRevenueDraw(d)
    ensures RevenueBalances(RevenueRow(fakultas, prodi, periode, d))
  {
    var r := RevenueRow(fakultas, prodi, periode, d);
    CollectedShare(d.totalTagihan, d.collectionRate, r.totalTerbayar);
  }

  /** Collected plus outstanding is the bill, and 5% to 25% of the bill is
      outstanding. */
  predicate RevenueBalances(r: RevenueSummary) {
    && r.totalTerbayar + r.totalOutstanding == r.totalTagihan as real
    && 0.05 * (r.totalTagihan as real) <= r.totalOutstanding <= 0.25 * (r.totalTagihan as real)
    && 75.0 <= r.tingkatKolektibilitas <= 95.0
  }

  predicate WellFormedRevenue(r: RevenueSummary) {
    && r.fakultas in ProdiDict && r.programStudi in ProdiDict[r.fakultas] && r.periode in Periods
    && r.jenisPendapatan == "SPP" && RevenueBalances(r)
  }

  lemma RevenueRowWellFormed(fakultas: string, prodi: string, periode: string, d: RevenueDraw)
    requires fakultas in ProdiDict && prodi in ProdiDict[fakultas] && periode in Periods && ValidRevenueDraw(d)
    ensures WellFormedRevenue(RevenueRow(fakultas, prodi, periode, d))
  {
    RevenueRowBalances(fakultas, prodi, periode, d);
  }

  lemma ProgrammeRevenueWellFormed(fi: nat, p: nat, ds: seq<RevenueDraw>)
    requires fi < |Faculties| && p < |Programmes(fi)| && ValidProgrammeRevenueDraws(ds)
    ensures forall r :: r in ProgrammeRevenue(Faculties[fi], Programmes(fi)[p], ds) ==> WellFormedRevenue(r)
  {
    forall k | 0 <= k < |Periods|
      ensures WellFormedRevenue(ProgrammeRevenue(Faculties[fi], Programmes(fi)[p], ds)[k])
    {
      RevenueRowWellFormed(Faculties[fi], Programmes(fi)[p], Periods[k], ds[k]);
    }
  }

  /** Every revenue row is for a programme of its own faculty; collected
      plus outstanding is the bill, and 5% to 25% of the bill is outstanding. */
  lemma RevenueRowsWellFormed(draws: seq<seq<seq<RevenueDraw>>>)
    requires ValidRevenueDraws(draws)
    ensures forall r :: r in RevenueRows(draws) ==> WellFormedRevenue(r)
  {
    var blocks := RevenueBlocks(draws);
    forall r | r in Concat(blocks)
      ensures WellFormedRevenue(r)
    {
      InConcat(blocks, r);
      var f :| 0 <= f < |blocks| && r in blocks[f];
      var fblocks := FacultyRevenueBlocks(f, draws[f]);
      InConcat(fblocks, r);
      var p :| 0 <= p < |fblocks| && r in fblocks[p];
      ProgrammeRevenueWellFormed(f, p, draws[f][p]);
    }
  }

  // ---------------------------------------------------------------------
  // payment_analysis

  datatype PaymentDraw = PaymentDraw(
    jumlahTransaksi: int, totalNominal: int, rataRataWaktuBayar: int,
    tingkatKeterlambatan: real, jumlahCicilan: int)

  predicate ValidPaymentDraw(d: PaymentDraw) {
    && 50 <= d.jumlahTransaksi <= 500 && 100000000 <= d.totalNominal <= 1000000000
    && 1 <= d.rataRataWaktuBayar <= 30 && 5.0 <= d.tingkatKeterlambatan <= 25.0
    && 0 <= d.jumlahCicilan <= 10
  }

  /** Draws for every faculty, method and period. */
  predicate ValidPaymentDraws(draws: seq<seq<seq<PaymentDraw>>>) {
    && |draws| == |Faculties|
    && (forall f :: 0 <= f < |Faculties| ==> |draws[f]| == |PaymentMethods|)
    && (forall f, m :: 0 <= f < |Faculties| && 0 <= m < |PaymentMethods| ==> |draws[f][m]| == |Periods|)
    && (forall f, m, k :: 0 <= f < |Faculties| && 0 <= m < |PaymentMethods| && 0 <= k < |Periods| ==>
          ValidPaymentDraw(draws[f][m][k]))
  }

  function PaymentRow(f: nat, m: nat, k: nat, d: PaymentDraw): PaymentAnalysis
    requires f < |Faculties| && m < |PaymentMethods| && k < |Periods|
  {
    PaymentAnalysis(
      Periods[k], Faculties[f], PaymentMethods[m], d.jumlahTransaksi, d.totalNominal,
      d.rataRataWaktuBayar, d.tingkatKeterlambatan, d.jumlahCicilan, TahunAkademik)
  }

  function MethodPayments(f: nat, m: nat, ds: seq<PaymentDraw>): seq<PaymentAnalysis>
    requires f < |Faculties| && m < |PaymentMethods| && |ds| == |Periods|
  {
    seq(|Periods|, k requires 0 <= k < |Periods| => PaymentRow(f, m, k, ds[k]))
  }

  function FacultyPaymentBlocks(f: nat, ds: seq<seq<PaymentDraw>>): seq<seq<PaymentAnalysis>>
    requires f < |Faculties| && |ds| == |PaymentMethods|
    requires forall m :: 0 <= m < |PaymentMethods| ==> |ds[m]| == |Periods|
  {
    seq(|PaymentMethods|, m requires 0 <= m < |PaymentMethods| => MethodPayments(f, m, ds[m]))
  }

  function PaymentBlocks(draws: seq<seq<seq<PaymentDraw>>>): seq<seq<PaymentAnalysis>>
    requires ValidPaymentDraws(draws)
  {
    seq(|Faculties|, f requires 0 <= f < |Faculties| => Concat(FacultyPaymentBlocks(f, draws[f])))
  }

  /** Everything `generate_payment_analysis` appends. */
  function PaymentRows(draws: seq<seq<seq<PaymentDraw>>>): seq<PaymentAnalysis>
    requires ValidPaymentDraws(draws)
  {
    Concat(PaymentBlocks(draws))
  }

  method AppendMethodPayments(data: seq<PaymentAnalysis>, f: nat, m: nat, ds: seq<PaymentDraw>)
    returns (out: seq<PaymentAnalysis>)
    requires f < |Faculties| && m < |PaymentMethods| && |ds| == |Periods|
    ensures out == data + MethodPayments(f, m, ds)
  {
    out := data;
    for k := 0 to |Periods|
      invariant out == data + MethodPayments(f, m, ds)[..k]
    {
      out := out + [PaymentRow(f, m, k, ds[k])];
    }
  }

  method AppendFacultyPayments(data: seq<PaymentAnalysis>, f: nat, ds: seq<seq<PaymentDraw>>)
    returns (out: seq<PaymentAnalysis>)
    requires f < |Faculties| && |ds| == |PaymentMethods|
    requires forall m :: 0 <= m < |PaymentMethods| ==> |ds[m]| == |Periods|
    ensures out == data + Concat(FacultyPaymentBlocks(f, ds))
  {
    var blocks := FacultyPaymentBlocks(f, ds);
    out := data;
    for m := 0 to |PaymentMethods|
      invariant out == data + Concat(blocks[..m])
    {
      ConcatStep(blocks, m);
      out := AppendMethodPayments(out, f, m, ds[m]);
    }
    assert blocks[..|PaymentMethods|] == blocks;
  }

  /** The three nested loops of `generate_payment_analysis`. */
  method BuildPaymentRows(draws: seq<seq<seq<PaymentDraw>>>) returns (data: seq<PaymentAnalysis>)
    requires ValidPaymentDraws(draws)
    ensures data == PaymentRows(draws)
  {
    var blocks := PaymentBlocks(draws);
    data := [];
    for f := 0 to |Faculties|
      invariant data == Concat(blocks[..f])
    {
      ConcatStep(blocks, f);
      data := AppendFacultyPayments(data, f, draws[f]);
    }
    assert blocks[..|Faculties|] == blocks;
  }

  /** Row `10 f + 2 m + k` of `rows` is the one for faculty `f`, payment
      method `m` and period `k`, with that cell's draws. */
  predicate PaymentCell(rows: seq<PaymentAnalysis>, f: nat, m: nat, k: nat, d: PaymentDraw)
    requires f < |Faculties| && m < |PaymentMethods| && k < |Periods|
  {
    && 10 * f + 2 * m + k < |rows|
    && rows[10 * f + 2 * m + k].fakultas == Faculties[f]
    && rows[10 * f + 2 * m + k].metodePembayaran == PaymentMethods[m]
    && rows[10 * f + 2 * m + k].periode == Periods[k]
    && rows[10 * f + 2 * m + k].jumlahTransaksi == d.jumlahTransaksi
    && rows[10 * f + 2 * m + k].totalNominal == d.totalNominal
  }

  /** 50 rows, and each combination of faculty, payment method and period
      has its own row: every pair of a faculty and a method is covered in
      both periods, exactly once. */
  lemma PaymentGrid(draws: seq<seq<seq<PaymentDraw>>>)
    requires ValidPaymentDraws(draws)
    ensures |PaymentRows(draws)| == 50
    ensures forall f, m, k :: 0 <= f < |Faculties| && 0 <= m < |PaymentMethods| && 0 <= k < |Periods| ==>
      PaymentCell(PaymentRows(draws), f, m, k, draws[f][m][k])
  {
    var blocks := PaymentBlocks(draws);
    forall f | 0 <= f < |Faculties|
      ensures |blocks[f]| == 10
      ensures forall m, k :: 0 <= m < |PaymentMethods| && 0 <= k < |Periods| ==>
        blocks[f][2 * m + k] == PaymentRow(f, m, k, draws[f][m][k])
    {
      var fb := FacultyPaymentBlocks(f, draws[f]);
      assert blocks[f] == Concat(fb);
      ConcatUniform(fb, 2);
      forall m, k | 0 <= m < |PaymentMethods| && 0 <= k < |Periods|
        ensures blocks[f][2 * m + k] == PaymentRow(f, m, k, draws[f][m][k])
      {
        assert m * 2 + k == 2 * m + k;
        assert Concat(fb)[m * 2 + k] == fb[m][k];
        assert fb[m][k] == MethodPayments(f, m, draws[f][m])[k];
      }
    }
    ConcatUniform(blocks, 10);
    forall f, m, k | 0 <= f < |Faculties| && 0 <= m < |PaymentMethods| && 0 <= k < |Periods|
      ensures PaymentCell(PaymentRows(draws), f, m, k, draws[f][m][k])
    {
      assert f * 10 + (2 * m + k) == 10 * f + 2 * m + k;
      assert PaymentRows(draws)[f * 10 + (2 * m + k)] == blocks[f][2 * m + k];
      assert PaymentRows(draws)[10 * f + 2 * m + k] == PaymentRow(f, m, k, draws[f][m][k]);
    }
  }

  // ---------------------------------------------------------------------
  // financial_kpi

  /** `int(total_revenue * 0.8)`, written as an exact floor. */
  function CostCeiling(revenue: int): int {
    revenue * 8 / 10
  }

  datatype KpiDraw = KpiDraw(
    totalRevenue: int, operationalCost: int, collectionRate: real, badDebtRatio: real,
    averagePaymentTime: int, scholarshipDisbursed: int)

  predicate ValidKpiDraw(d: KpiDraw) {
    && 1000000000 <= d.totalRevenue <= 5000000000
    && 800000000 <= d.operationalCost <= CostCeiling(d.totalRevenue)
    && 80.0 <= d.collectionRate <= 95.0 && 2.0 <= d.badDebtRatio <= 8.0
    && 15 <= d.averagePaymentTime <= 45 && 50000000 <= d.scholarshipDisbursed <= 300000000
  }

  /** Draws per period (outer) and faculty (inner). */
  predicate ValidKpiDraws(draws: seq<seq<KpiDraw>>) {
    && |draws| == |Periods|
    && (forall k :: 0 <= k < |Periods| ==> |draws[k]| == |Faculties|)
    && (forall k, f :: 0 <= k < |Periods| && 0 <= f < |Faculties| ==> ValidKpiDraw(draws[k][f]))
  }

  /** `random.randint(800000000, int(total_revenue * 0.8))` never gets an
      empty range: the lowest revenue already allows a cost of 800 million. */
  lemma CostRangeNonEmpty(revenue: int)
    requires 1000000000 <= revenue <= 5000000000
    ensures 800000000 <= CostCeiling(revenue)
  {
  }

  function KpiRow(k: nat, f: nat, d: KpiDraw): FinancialKpi
    requires k < |Periods| && f < |Faculties|
  {
    FinancialKpi(
      Periods[k], Faculties[f], d.totalRevenue, d.collectionRate, d.badDebtRatio,
      d.averagePaymentTime, d.scholarshipDisbursed, d.operationalCost,
      d.totalRevenue - d.operationalCost, TahunAkademik)
  }

  function PeriodKpis(k: nat, ds: seq<KpiDraw>): seq<FinancialKpi>
    requires k < |Periods| && |ds| == |Faculties|
  {
    seq(|Faculties|, f requires 0 <= f < |Faculties| => KpiRow(k, f, ds[f]))
  }

  function KpiBlocks(draws: seq<seq<KpiDraw>>): seq<seq<FinancialKpi>>
    requires ValidKpiDraws(draws)
  {
    seq(|Periods|, k requires 0 <= k < |Periods| => PeriodKpis(k, draws[k]))
  }

  /** Everything `generate_financial_kpi` appends. */
  function KpiRows(draws: seq<seq<KpiDraw>>): seq<FinancialKpi>
    requires ValidKpiDraws(draws)
  {
    Concat(KpiBlocks(draws))
  }

  /** The two nested loops of `generate_financial_kpi`. */
  method BuildKpiRows(draws: seq<seq<KpiDraw>>) returns (data: seq<FinancialKpi>)
    requires ValidKpiDraws(draws)
    ensures data == KpiRows(draws)
  {
    var blocks := KpiBlocks(draws);
    data := [];
    for k := 0 to |Periods|
      invariant data == Concat(blocks[..k])
    {
      ConcatStep(blocks, k);
      for f := 0 to |Faculties|
        invariant data == Concat(blocks[..k]) + blocks[k][..f]
      {
        data := data + [KpiRow(k, f, draws[k][f])];
      }
    }
    assert blocks[..|Periods|] == blocks;
  }

  /** One KPI row: net income is revenue minus cost, the cost is at most
      80% of the revenue, so the faculty keeps at least a fifth of its
      revenue and never makes a loss. */
  lemma KpiRowFacts(k: nat, f: nat, d: KpiDraw)
    requires k < |Periods| && f < |Faculties| && ValidKpiDraw(d)
    ensures KpiRow(k, f, d).netIncome == KpiRow(k, f, d).totalRevenue - KpiRow(k, f, d).operationalCost
    ensures 10 * KpiRow(k, f, d).operationalCost <= 8 * KpiRow(k, f, d).totalRevenue
    ensures 5 * KpiRow(k, f, d).netIncome >= KpiRow(k, f, d).totalRevenue
    ensures KpiRow(k, f, d).netIncome >= 200000000
  {
    assert 10 * CostCeiling(d.totalRevenue) <= 8 * d.totalRevenue;
  }

  /** Ten rows; row `5 k + f` is the one for period `k` and faculty `f`. */
  lemma KpiGrid(draws: seq<seq<KpiDraw>>)
    requires ValidKpiDraws(draws)
    ensures |KpiRows(draws)| == 10
    ensures forall k, f :: 0 <= k < |Periods| && 0 <= f < |Faculties| ==>
      5 * k + f < 10 && KpiRows(draws)[5 * k + f] == KpiRow(k, f, draws[k][f])
  {
    var blocks := KpiBlocks(draws);
    ConcatUniform(blocks, 5);
    forall k, f | 0 <= k < |Periods| && 0 <= f < |Faculties|
      ensures 5 * k + f < 10 && KpiRows(draws)[5 * k + f] == KpiRow(k, f, draws[k][f])
    {
      assert k * 5 + f == 5 * k + f;
      assert blocks[k][f] == KpiRow(k, f, draws[k][f]);
    }
  }

  /** Every KPI row of the batch keeps at least a fifth of its revenue. */
  lemma KpiRowsProfitable(draws: seq<seq<KpiDraw>>)
    requires ValidKpiDraws(draws)
    ensures forall r :: r in KpiRows(draws) ==>
      && r.netIncome == r.totalRevenue - r.operationalCost
      && 10 * r.operationalCost <= 8 * r.totalRevenue
      && 5 * r.netIncome >= r.totalRevenue
      && r.netIncome >= 200000000
  {
    KpiGrid(draws);
    forall r | r in KpiRows(draws)
      ensures 10 * r.operationalCost <= 8 * r.totalRevenue && 5 * r.netIncome >= r.totalRevenue
      ensures r.netIncome == r.totalRevenue - r.operationalCost && r.netIncome >= 200000000
    {
      var i :| 0 <= i < 10 && KpiRows(draws)[i] == r;
      var k, f := i / 5, i % 5;
      assert i == 5 * k + f;
      KpiRowFacts(k, f, draws[k][f]);
    }
  }

  // ---------------------------------------------------------------------
  // the generator

  datatype KeuanganDraws = KeuanganDraws(
    revenue: seq<seq<seq<RevenueDraw>>>, payment: seq<seq<seq<PaymentDraw>>>, kpi: seq<seq<KpiDraw>>)

  predicate AllReady(d: KeuanganDraws) {
    ValidRevenueDraws(d.revenue) && ValidPaymentDraws(d.payment) && ValidKpiDraws(d.kpi)
  }

  /** The financial tables of the datamart. */
  datatype FinancialTables = FinancialTables(revenue: seq<RevenueSummary>, payments: seq<PaymentAnalysis>, kpi: seq<FinancialKpi>)

  /** The three financial tables after `generate_all`, given what they held
      before: each has its batch appended. */
  function Generated(before: FinancialTables, d: KeuanganDraws): FinancialTables
    requires AllReady(d)
  {
    FinancialTables(
      before.revenue + RevenueRows(d.revenue),
      before.payments + PaymentRows(d.payment),
      before.kpi + KpiRows(d.kpi))
  }

  class KeuanganGenerator {
    const db: Datamart

    constructor (db: Datamart)
      ensures this.db == db
    {
      this.db := db;
    }

    method GenerateRevenueSummary(count: nat, draws: seq<seq<seq<RevenueDraw>>>)
      requires ValidRevenueDraws(draws)
      modifies db`revenueSummary
      ensures db.revenueSummary == old(db.revenueSummary) + RevenueRows(draws)
    {
      var data := BuildRevenueRows(draws);
      db.revenueSummary := db.revenueSummary + data;
    }

    method GeneratePaymentAnalysis(count: nat, draws: seq<seq<seq<PaymentDraw>>>)
      requires ValidPaymentDraws(draws)
      modifies db`paymentAnalysis
      ensures db.paymentAnalysis == old(db.paymentAnalysis) + PaymentRows(draws)
    {
      var data := BuildPaymentRows(draws);
      db.paymentAnalysis := db.paymentAnalysis + data;
    }

    method GenerateFinancialKpi(count: nat, draws: seq<seq<KpiDraw>>)
      requires ValidKpiDraws(draws)
      modifies db`financialKpi
      ensures db.financialKpi == old(db.financialKpi) + KpiRows(draws)
    {
      var data := BuildKpiRows(draws);
      db.financialKpi := db.financialKpi + data;
    }

    method GenerateAll(d: KeuanganDraws)
      requires AllReady(d)
      modifies db`revenueSummary, db`paymentAnalysis, db`financialKpi
      ensures FinancialTables(db.revenueSummary, db.paymentAnalysis, db.financialKpi)
        == Generated(FinancialTables(old(db.revenueSummary), old(db.paymentAnalysis), old(db.financialKpi)), d)
    {
      GenerateRevenueSummary(50, d.revenue);
      GeneratePaymentAnalysis(50, d.payment);
      GenerateFinancialKpi(20, d.kpi);
    }
  }
}
