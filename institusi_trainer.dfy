/** `InstitusiTrainer`: trains the institutional collection. It first
    appends another batch of institutional rows to the datamart (university
    performance with every figure drawn, accreditation rows built exactly as
    `InstitusiGenerator` builds them), then indexes its DDL under
    "institutional_schema", its documentation under
    "institutional_documentation" and its sample questions. */
module InstitusiTrainer {
  import opened Wrappers
  import opened Catalog
  import opened Datamart
  import I = Institusi
  import V = VannaSetup
  import T = Training

  // ---------------------------------------------------------------------
  // university_performance, as the trainer draws it

  /** Every figure is drawn; none is read from the datamart. */
  datatype UniversityDraw = UniversityDraw(
    mahasiswa: int, dosen: int, programmes: int, ipk: real, tingkatKelulusan: real,
    tingkatDropOut: real, ratio: real, tingkatKepuasan: real)

  predicate ValidUniversityDraw(d: UniversityDraw) {
    && 3000 <= d.mahasiswa <= 5000 && 200 <= d.dosen <= 400 && 15 <= d.programmes <= 25
    && 3.0 <= d.ipk <= 3.8 && 85.0 <= d.tingkatKelulusan <= 95.0 && 3.0 <= d.tingkatDropOut <= 8.0
    && 15.0 <= d.ratio <= 25.0 && 75.0 <= d.tingkatKepuasan <= 90.0
  }

  predicate ValidUniversityDraws(draws: seq<UniversityDraw>) {
    |draws| == |I.AcademicYears| && forall k :: 0 <= k < |I.AcademicYears| ==> ValidUniversityDraw(draws[k])
  }

  function UniversityRow(k: nat, d: UniversityDraw): UniversityPerformance
    requires k < |I.AcademicYears|
  {
    UniversityPerformance(
      I.AcademicYears[k], d.mahasiswa, d.dosen, d.programmes, 5, d.ipk, d.tingkatKelulusan,
      d.tingkatDropOut, d.ratio, d.tingkatKepuasan, "B", I.AcademicYears[k])
  }

  /** The `perf_data` the trainer appends. */
  function UniversityRows(draws: seq<UniversityDraw>): seq<UniversityPerformance>
    requires |draws| == |I.AcademicYears|
  {
    seq(|I.AcademicYears|, k requires 0 <= k < |I.AcademicYears| => UniversityRow(k, draws[k]))
  }

  /** The loop over the two academic years. */
  method BuildUniversityRows(draws: seq<UniversityDraw>) returns (data: seq<UniversityPerformance>)
    requires |draws| == |I.AcademicYears|
    ensures data == UniversityRows(draws)
  {
    data := [];
    for k := 0 to |I.AcademicYears|
      invariant data == UniversityRows(draws)[..k]
    {
      data := data + [UniversityRow(k, draws[k])];
    }
  }

  /** Two rows, each labelled with its own academic year, five faculties
      and accreditation B; the programme total is a draw from 15 to 25. */
  lemma UniversityRowsFacts(draws: seq<UniversityDraw>)
    requires ValidUniversityDraws(draws)
    ensures |UniversityRows(draws)| == 2
    ensures UniversityRows(draws)[0].periode == "2023/2024" && UniversityRows(draws)[1].periode == "2024/2025"
    ensures forall r :: r in UniversityRows(draws) ==>
      && r.tahunAkademik == r.periode && r.totalFakultas == 5 && r.akreditasiInstitusi == "B"
      && 15 <= r.totalProgramStudi <= 25
  {
    var rows := UniversityRows(draws);
    forall r | r in rows
      ensures r.tahunAkademik == r.periode && r.totalFakultas == 5 && r.akreditasiInstitusi == "B"
      ensures 15 <= r.totalProgramStudi <= 25
    {
      var k :| 0 <= k < 2 && rows[k] == r;
      assert ValidUniversityDraw(draws[k]);
    }
  }

  /** Unlike the generator's, the trainer's figures need not agree with the
      catalog or with each other: a valid draw reports 15 programmes where
      the catalog has 16, and a ratio of 15 students per lecturer for 3000
      students and 400 lecturers. */
  lemma FiguresNotDerived()
    ensures var d := UniversityDraw(3000, 400, 15, 3.0, 85.0, 3.0, 15.0, 75.0);
      && ValidUniversityDraw(d)
      && UniversityRow(0, d).totalProgramStudi != TotalProgrammes()
      && UniversityRow(0, d).studentLecturerRatio * (UniversityRow(0, d).totalDosen as real)
         != UniversityRow(0, d).totalMahasiswa as real
  {
    assert TotalProgrammes() == 16;
  }

  // ---------------------------------------------------------------------
  // the trainer

  const SchemaName := "institutional_schema"
  const DocumentationName := "institutional_documentation"
  const WriteError := "to_sql failed"

  /** The draws of one `_generate_institutional_data`. */
  datatype InstitutionalDraws = InstitutionalDraws(
    university: seq<UniversityDraw>, programmeAccreditation: seq<seq<I.AccreditationDraw>>,
    facultyAccreditation: seq<I.AccreditationDraw>)

  predicate ValidInstitutionalDraws(d: InstitutionalDraws) {
    ValidUniversityDraws(d.university) && I.ValidAccreditationDraws(d.programmeAccreditation, d.facultyAccreditation)
  }

  /** The two tables after `_generate_institutional_data`, given how many of
      its two `to_sql` calls go through before one raises. */
  function AfterGeneration(university: seq<UniversityPerformance>, accreditation: seq<AccreditationStatus>,
                           today: int, d: InstitutionalDraws, acceptedWrites: nat)
    : (seq<UniversityPerformance>, seq<AccreditationStatus>)
    requires ValidInstitutionalDraws(d)
  {
    (university + (if acceptedWrites >= 1 then UniversityRows(d.university) else []),
     accreditation + (if acceptedWrites >= 2 then I.AccreditationRows(today, d.programmeAccreditation, d.facultyAccreditation) else []))
  }

  /** A full generation appends 2 university rows and 22 accreditation
      rows, ending with the fixed institution row; a failed write leaves
      the later table as it was. */
  lemma GenerationCounts(university: seq<UniversityPerformance>, accreditation: seq<AccreditationStatus>,
                         today: int, d: InstitutionalDraws, acceptedWrites: nat)
    requires ValidInstitutionalDraws(d)
    ensures var (u, a) := AfterGeneration(university, accreditation, today, d, acceptedWrites);
      && |u| == |university| + (if acceptedWrites >= 1 then 2 else 0)
      && |a| == |accreditation| + (if acceptedWrites >= 2 then 22 else 0)
      && (acceptedWrites >= 2 ==> a[|a| - 1] == I.InstitutionAccreditation(today))
  {
    hide I.AccreditationRows, UniversityRows;
    UniversityRowsFacts(d.university);
    I.AccreditationFacts(today, d.programmeAccreditation, d.facultyAccreditation);
  }

  /** The collection after `train_ddl`, `train_documentation` and
      `train_sample_questions`, in that order. */
  function Indexed(cols: map<string, V.Collection>, reachable: bool, name: string, md5: string -> string,
                   texts: T.Texts, answers: T.Answers): map<string, V.Collection>
    requires T.AnswersFor(texts, answers)
  {
    var afterDdl := V.AfterAdds(cols, reachable, name, md5, T.SchemaEntries(SchemaName, texts.ddls), answers.ddls);
    var afterDocs := V.AfterAdds(afterDdl, reachable, name, md5, T.SchemaEntries(DocumentationName, texts.docs), answers.docs);
    V.AfterAdds(afterDocs, reachable, name, md5, T.QuestionEntries(texts.pairs), answers.pairs)
  }

  /** On a server that answers and holds the collection, every DDL text,
      document and sample question that got an embedding ends up with a
      point under the digest of its content, whatever the later adds did. */
  lemma IndexedKeepsEveryText(cols: map<string, V.Collection>, name: string, md5: string -> string,
                              texts: T.Texts, answers: T.Answers)
    requires T.AnswersFor(texts, answers) && name in cols
    ensures var r := Indexed(cols, true, name, md5, texts, answers);
      && name in r
      && (forall j :: 0 <= j < |texts.ddls| && V.Embedding(answers.ddls[j]) != [] ==>
            md5(V.SchemaContent(SchemaName, texts.ddls[j])) in r[name].points)
      && (forall j :: 0 <= j < |texts.docs| && V.Embedding(answers.docs[j]) != [] ==>
            md5(V.SchemaContent(DocumentationName, texts.docs[j])) in r[name].points)
      && (forall j :: 0 <= j < |texts.pairs| && V.Embedding(answers.pairs[j]) != [] ==>
            md5(V.QuestionContent(texts.pairs[j].question, texts.pairs[j].sql)) in r[name].points)
  {
    var ddl := T.SchemaEntries(SchemaName, texts.ddls);
    var docs := T.SchemaEntries(DocumentationName, texts.docs);
    var pairs := T.QuestionEntries(texts.pairs);
    var afterDdl := V.AfterAdds(cols, true, name, md5, ddl, answers.ddls);
    var afterDocs := V.AfterAdds(afterDdl, true, name, md5, docs, answers.docs);
    var r := V.AfterAdds(afterDocs, true, name, md5, pairs, answers.pairs);
    V.AddsKeepPoints(cols, true, name, md5, ddl, answers.ddls);
    T.BatchesStoreEmbedded(cols, name, md5, ddl, answers.ddls, docs, answers.docs);
    T.BatchesStoreEmbedded(afterDdl, name, md5, docs, answers.docs, pairs, answers.pairs);
    V.AddsKeepPoints(afterDocs, true, name, md5, pairs, answers.pairs);
    assert forall j :: 0 <= j < |texts.ddls| ==> ddl[j].content == V.SchemaContent(SchemaName, texts.ddls[j]);
    assert forall j :: 0 <= j < |texts.docs| ==> docs[j].content == V.SchemaContent(DocumentationName, texts.docs[j]);
    assert forall j :: 0 <= j < |texts.pairs| ==>
      pairs[j].content == V.QuestionContent(texts.pairs[j].question, texts.pairs[j].sql);
  }

  class InstitusiTrainer {
    const trainer: V.AcademicVannaTrainer
    const db: Datamart

    constructor (trainer: V.AcademicVannaTrainer, db: Datamart)
      ensures this.trainer == trainer && this.db == db
    {
      this.trainer := trainer;
      this.db := db;
    }

    /** `_generate_institutional_data`, `today` standing for
        `datetime.now()`: a write that raises is caught and logged; the
        outcome is what the log says. */
    method GenerateInstitutionalData(today: int, d: InstitutionalDraws, acceptedWrites: nat) returns (outcome: Outcome)
      requires ValidInstitutionalDraws(d)
      modifies db`universityPerformance, db`accreditationStatus
      ensures (db.universityPerformance, db.accreditationStatus)
        == AfterGeneration(old(db.universityPerformance), old(db.accreditationStatus), today, d, acceptedWrites)
      ensures outcome == if acceptedWrites >= 2 then Pass else Fail(WriteError)
    {
      var university := BuildUniversityRows(d.university);
      if acceptedWrites < 1 {
        assert db.universityPerformance == old(db.universityPerformance) + [];
        assert db.accreditationStatus == old(db.accreditationStatus) + [];
        return Fail(WriteError);
      }
      db.universityPerformance := db.universityPerformance + university;
      var accreditation := I.BuildAccreditationRows(today, d.programmeAccreditation, d.facultyAccreditation);
      if acceptedWrites < 2 {
        assert db.accreditationStatus == old(db.accreditationStatus) + [];
        return Fail(WriteError);
      }
      db.accreditationStatus := db.accreditationStatus + accreditation;
      outcome := Pass;
    }

    /** `train`: data generation (its failures only logged), then the DDL
        texts, the documents and the sample questions, each add's failure
        caught inside the indexer, so every step runs. */
    method Train(today: int, d: InstitutionalDraws, acceptedWrites: nat, texts: T.Texts, answers: T.Answers)
      returns (passed: seq<bool>)
      requires ValidInstitutionalDraws(d) && T.AnswersFor(texts, answers)
      modifies db`universityPerformance, db`accreditationStatus, trainer.store`collections
      ensures (db.universityPerformance, db.accreditationStatus)
        == AfterGeneration(old(db.universityPerformance), old(db.accreditationStatus), today, d, acceptedWrites)
      ensures trainer.store.collections
        == Indexed(old(trainer.store.collections), trainer.store.reachable, trainer.collectionName, trainer.md5, texts, answers)
      ensures |passed| == |texts.pairs| && forall i :: 0 <= i < |texts.pairs| ==> passed[i]
    {
      var _ := GenerateInstitutionalData(today, d, acceptedWrites);
      T.AddSchemas(trainer, SchemaName, texts.ddls, answers.ddls);
      T.AddSchemas(trainer, DocumentationName, texts.docs, answers.docs);
      passed := T.AddPairs(trainer, texts.pairs, answers.pairs, answers.queries);
    }
  }
}
