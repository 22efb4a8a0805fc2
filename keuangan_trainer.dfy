/** `KeuanganTrainer`: trains the financial collection. It first appends
    another batch of financial rows to the datamart (revenue and payment
    rows built exactly as `KeuanganGenerator` builds them, KPI rows with
    every figure drawn independently), then indexes its DDL, its
    documentation and its sample questions. */
module KeuanganTrainer {
  import opened Wrappers
  import opened Seqs
  import opened Catalog
  import opened Datamart
  import K = Keuangan
  import V = VannaSetup
  import T = Training

  // ---------------------------------------------------------------------
  // financial_kpi, as the trainer draws it

  /** Every KPI figure, the net income included, is its own draw. */
  datatype KpiDraw = KpiDraw(
    totalRevenue: int, collectionRate: real, badDebtRatio: real, averagePaymentTime: int,
    scholarshipDisbursed: int, operationalCost: int, netIncome: int)

  predicate ValidKpiDraw(d: KpiDraw) {
    && 1000000000 <= d.totalRevenue <= 5000000000
    && 80.0 <= d.collectionRate <= 95.0 && 2.0 <= d.badDebtRatio <= 8.0
    && 15 <= d.averagePaymentTime <= 45 && 50000000 <= d.scholarshipDisbursed <= 300000000
    && 800000000 <= d.operationalCost <= 2000000000
    && 200000000 <= d.netIncome <= 1000000000
  }

  /** Draws per period (outer) and faculty (inner). */
  predicate ValidKpiDraws(draws: seq<seq<KpiDraw>>) {
    && |draws| == |K.Periods|
    && (forall k :: 0 <= k < |K.Periods| ==> |draws[k]| == |Faculties|)
    && (forall k, f :: 0 <= k < |K.Periods| && 0 <= f < |Faculties| ==> ValidKpiDraw(draws[k][f]))
  }

  function KpiRow(k: nat, f: nat, d: KpiDraw): FinancialKpi
    requires k < |K.Periods| && f < |Faculties|
  {
    FinancialKpi(
      K.Periods[k], Faculties[f], d.totalRevenue, d.collectionRate, d.badDebtRatio,
      d.averagePaymentTime, d.scholarshipDisbursed, d.operationalCost, d.netIncome, TahunAkademik)
  }

  function PeriodKpis(k: nat, ds: seq<KpiDraw>): seq<FinancialKpi>
    requires k < |K.Periods| && |ds| == |Faculties|
  {
    seq(|Faculties|, f requires 0 <= f < |Faculties| => KpiRow(k, f, ds[f]))
  }

  function KpiBlocks(draws: seq<seq<KpiDraw>>): seq<seq<FinancialKpi>>
    requires ValidKpiDraws(draws)
  {
    seq(|K.Periods|, k requires 0 <= k < |K.Periods| => PeriodKpis(k, draws[k]))
  }

  /** The `kpi_data` the trainer appends. */
  function KpiRows(draws: seq<seq<KpiDraw>>): seq<FinancialKpi>
    requires ValidKpiDraws(draws)
  {
    Concat(KpiBlocks(draws))
  }

  /** The two nested loops that fill `kpi_data`. */
  method BuildKpiRows(draws: seq<seq<KpiDraw>>) returns (data: seq<FinancialKpi>)
    requires ValidKpiDraws(draws)
    ensures data == KpiRows(draws)
  {
    hide KpiRow;
    var blocks := KpiBlocks(draws);
    data := [];
    for k := 0 to |K.Periods|
      invariant data == Concat(blocks[..k])
    {
      ConcatStep(blocks, k);
      for f := 0 to |Faculties|
        invariant data == Concat(blocks[..k]) + blocks[k][..f]
      {
        data := data + [KpiRow(k, f, draws[k][f])];
      }
      assert blocks[k][..|Faculties|] == blocks[k];
    }
    assert blocks[..|K.Periods|] == blocks;
  }

  /** Row `5 k + f` of the batch is the one for period `k` and faculty `f`. */
  lemma KpiRowAt(draws: seq<seq<KpiDraw>>, k: nat, f: nat)
    requires ValidKpiDraws(draws) && k < |K.Periods| && f < |Faculties|
    ensures |KpiRows(draws)| == 10 && 5 * k + f < 10
    ensures KpiRows(draws)[5 * k + f] == KpiRow(k, f, draws[k][f])
  {
    hide KpiRow;
    var blocks := KpiBlocks(draws);
    ConcatUniform(blocks, 5);
    assert k * 5 + f == 5 * k + f;
    assert blocks[k][f] == KpiRow(k, f, draws[k][f]);
  }

  /** Ten rows, period by period and within a period faculty by faculty:
      row `i` is for period `i / 5` and faculty `i % 5`, its net income
      between 200 million and 1 billion and its cost between 800 million
      and 2 billion. */
  lemma KpiGrid(draws: seq<seq<KpiDraw>>)
    requires ValidKpiDraws(draws)
    ensures |KpiRows(draws)| == 10
    ensures forall i :: 0 <= i < |KpiRows(draws)| ==>
      && KpiRows(draws)[i].periode == K.Periods[i / 5]
      && KpiRows(draws)[i].fakultas == Faculties[i % 5]
      && 200000000 <= KpiRows(draws)[i].netIncome <= 1000000000
      && 800000000 <= KpiRows(draws)[i].operationalCost <= 2000000000
  {
    KpiRowAt(draws, 0, 0);
    forall i | 0 <= i < |KpiRows(draws)|
      ensures KpiRows(draws)[i].periode == K.Periods[i / 5] && KpiRows(draws)[i].fakultas == Faculties[i % 5]
      ensures 200000000 <= KpiRows(draws)[i].netIncome <= 1000000000
      ensures 800000000 <= KpiRows(draws)[i].operationalCost <= 2000000000
    {
      var k, f := i / 5, i % 5;
      KpiRowAt(draws, k, f);
      assert i == 5 * k + f;
      assert ValidKpiDraw(draws[k][f]);
    }
  }

  /** Unlike the generator's, the trainer's net income is not revenue minus
      cost: the lowest revenue with the highest cost is a loss of one
      billion, yet the row reports a net income of 200 million. */
  lemma NetIncomeNotDerived()
    ensures var d := KpiDraw(1000000000, 80.0, 2.0, 15, 50000000, 2000000000, 200000000);
      && ValidKpiDraw(d)
      && KpiRow(0, 0, d).totalRevenue - KpiRow(0, 0, d).operationalCost == -1000000000
      && KpiRow(0, 0, d).netIncome == 200000000
  {
  }

  // ---------------------------------------------------------------------
  // the trainer

  /** The TypeError of `add_schema_info("financial_schema", ddl, "ddl")`:
      the method takes a name and a description only. */
  const ArityError := V.TooManyArguments("add_schema_info", 4)

  /** The AttributeError of `add_documentation`, which the indexer lacks. */
  const MissingMethodError := V.NoAttribute("add_documentation")

  const WriteError := "to_sql failed"

  /** The draws of one `_generate_financial_data`. */
  datatype FinancialDraws = FinancialDraws(
    revenue: seq<seq<seq<K.RevenueDraw>>>, payment: seq<seq<seq<K.PaymentDraw>>>, kpi: seq<seq<KpiDraw>>)

  predicate ValidFinancialDraws(d: FinancialDraws) {
    K.ValidRevenueDraws(d.revenue) && K.ValidPaymentDraws(d.payment) && ValidKpiDraws(d.kpi)
  }

  /** The three financial tables after `_generate_financial_data`, given
      how many of its three `to_sql` calls go through before one raises:
      each batch written is appended whole, and none after the failure. */
  function AfterGeneration(before: K.FinancialTables, d: FinancialDraws, acceptedWrites: nat): K.FinancialTables
    requires ValidFinancialDraws(d)
  {
    K.FinancialTables(
      before.revenue + (if acceptedWrites >= 1 then K.RevenueRows(d.revenue) else []),
      before.payments + (if acceptedWrites >= 2 then K.PaymentRows(d.payment) else []),
      before.kpi + (if acceptedWrites >= 3 then KpiRows(d.kpi) else []))
  }

  /** A full generation appends 32 revenue rows that balance, 50 payment
      rows and 10 KPI rows; a failed write leaves every later table as it was. */
  lemma GenerationCounts(before: K.FinancialTables, d: FinancialDraws, acceptedWrites: nat)
    requires ValidFinancialDraws(d)
    ensures var after := AfterGeneration(before, d, acceptedWrites);
      && |after.revenue| == |before.revenue| + (if acceptedWrites >= 1 then 32 else 0)
      && |after.payments| == |before.payments| + (if acceptedWrites >= 2 then 50 else 0)
      && |after.kpi| == |before.kpi| + (if acceptedWrites >= 3 then 10 else 0)
      && (forall i :: |before.revenue| <= i < |after.revenue| ==>
            after.revenue[i].totalTerbayar + after.revenue[i].totalOutstanding == after.revenue[i].totalTagihan as real)
  {
    hide K.RevenueRows, K.PaymentRows, KpiRows;
    K.RevenueCount(d.revenue);
    K.PaymentGrid(d.payment);
    KpiGrid(d.kpi);
    var after := AfterGeneration(before, d, acceptedWrites);
    if acceptedWrites >= 1 {
      K.RevenueRowsWellFormed(d.revenue);
      forall i | |before.revenue| <= i < |after.revenue|
        ensures after.revenue[i].totalTerbayar + after.revenue[i].totalOutstanding == after.revenue[i].totalTagihan as real
      {
        var rows := K.RevenueRows(d.revenue);
        assert after.revenue[i] == rows[i - |before.revenue|];
        assert rows[i - |before.revenue|] in rows;
      }
    }
  }

  class KeuanganTrainer {
    const trainer: V.AcademicVannaTrainer
    const db: Datamart

    constructor (trainer: V.AcademicVannaTrainer, db: Datamart)
      ensures this.trainer == trainer && this.db == db
    {
      this.trainer := trainer;
      this.db := db;
    }

    /** `_generate_financial_data`: a write that raises is caught and
        logged; the outcome is what the log says. */
    method GenerateFinancialData(d: FinancialDraws, acceptedWrites: nat) returns (outcome: Outcome)
      requires ValidFinancialDraws(d)
      modifies db`revenueSummary, db`paymentAnalysis, db`financialKpi
      ensures K.FinancialTables(db.revenueSummary, db.paymentAnalysis, db.financialKpi)
        == AfterGeneration(K.FinancialTables(old(db.revenueSummary), old(db.paymentAnalysis), old(db.financialKpi)), d, acceptedWrites)
      ensures outcome == if acceptedWrites >= 3 then Pass else Fail(WriteError)
    {
      var revenue := K.BuildRevenueRows(d.revenue);
      if acceptedWrites < 1 {
        return Fail(WriteError);
      }
      db.revenueSummary := db.revenueSummary + revenue;
      var payments := K.BuildPaymentRows(d.payment);
      if acceptedWrites < 2 {
        return Fail(WriteError);
      }
      db.paymentAnalysis := db.paymentAnalysis + payments;
      var kpi := BuildKpiRows(d.kpi);
      if acceptedWrites < 3 {
        return Fail(WriteError);
      }
      db.financialKpi := db.financialKpi + kpi;
      outcome := Pass;
    }

    /** `train_ddl`: each DDL text goes to `add_schema_info` together with
        a third argument, `"ddl"`, which the method has no parameter for. */
    method TrainDdl(ddls: seq<string>, responses: seq<Result<seq<real>>>) returns (outcome: Outcome)
      requires |responses| == |ddls|
      modifies trainer.store`collections
      ensures outcome == if ddls == [] then Pass else Fail(ArityError)
      ensures trainer.store.collections == old(trainer.store.collections)
    {
      outcome := T.InvokeEach(trainer, "add_schema_info", ["financial_schema"], ddls, ["ddl"], responses);
    }

    /** `train_documentation`: each document goes to `add_documentation`,
        a method the indexer does not define. */
    method TrainDocumentation(docs: seq<string>, responses: seq<Result<seq<real>>>) returns (outcome: Outcome)
      requires |responses| == |docs|
      modifies trainer.store`collections
      ensures outcome == if docs == [] then Pass else Fail(MissingMethodError)
      ensures trainer.store.collections == old(trainer.store.collections)
    {
      V.AddDocumentationUndefined(1);
      outcome := T.InvokeEach(trainer, "add_documentation", [], docs, [], responses);
    }

    /** `train_sample_questions`: each pair added, then smoke-tested. */
    method TrainSampleQuestions(pairs: seq<T.Pair>, responses: seq<Result<seq<real>>>, queries: seq<Result<V.Frame>>)
      returns (passed: seq<bool>)
      requires |responses| == |pairs| && |queries| == |pairs|
      modifies trainer.store`collections
      ensures trainer.store.collections
        == V.AfterAdds(old(trainer.store.collections), trainer.store.reachable, trainer.collectionName, trainer.md5,
                       T.QuestionEntries(pairs), responses)
      ensures |passed| == |pairs| && forall i :: 0 <= i < |pairs| ==> passed[i]
    {
      passed := T.AddPairs(trainer, pairs, responses, queries);
    }

    /** `train`: the data is generated (its failures are only logged), then
        the three indexing steps run in order, and an exception raised by
        one of them leaves `train`. With the trainer's own texts the DDL
        step raises, so neither a document nor a question pair is indexed
        and the vector store is left as it was. */
    method Train(d: FinancialDraws, acceptedWrites: nat, texts: T.Texts, answers: T.Answers) returns (outcome: Outcome)
      requires ValidFinancialDraws(d) && T.AnswersFor(texts, answers)
      modifies db`revenueSummary, db`paymentAnalysis, db`financialKpi, trainer.store`collections
      ensures K.FinancialTables(db.revenueSummary, db.paymentAnalysis, db.financialKpi)
        == AfterGeneration(K.FinancialTables(old(db.revenueSummary), old(db.paymentAnalysis), old(db.financialKpi)), d, acceptedWrites)
      ensures outcome == if texts.ddls != [] then Fail(ArityError)
                         else if texts.docs != [] then Fail(MissingMethodError)
                         else Pass
      ensures texts.ddls != [] || texts.docs != [] ==> trainer.store.collections == old(trainer.store.collections)
      ensures texts.ddls == [] && texts.docs == [] ==>
        trainer.store.collections
          == V.AfterAdds(old(trainer.store.collections), trainer.store.reachable, trainer.collectionName, trainer.md5,
                         T.QuestionEntries(texts.pairs), answers.pairs)
    {
      var _ := GenerateFinancialData(d, acceptedWrites);
      outcome := TrainDdl(texts.ddls, answers.ddls);
      if outcome.Fail? {
        return;
      }
      outcome := TrainDocumentation(texts.docs, answers.docs);
      if outcome.Fail? {
        return;
      }
      var _ := TrainSampleQuestions(texts.pairs, answers.pairs, answers.queries);
    }
  }
}
