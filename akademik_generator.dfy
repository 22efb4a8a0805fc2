/** The academic collection (`AkademikGenerator`): course_performance,
    grade_distribution over a sample of at most 100 courses, and
    academic_trends, three sampled metrics for every programme and period. */
module Akademik {
  import opened Wrappers
  import opened Digits
  import opened Seqs
  import opened Catalog
  import opened Datamart

  const CreditChoices: seq<int> := [2, 3, 4]
  const CourseKinds: seq<string> := ["Wajib", "Pilihan"]
  const Semesters: seq<string> := ["Ganjil", "Genap"]

  // ---------------------------------------------------------------------
  // course_performance

  datatype CourseDraw = CourseDraw(
    facultyIx: nat, prodiIx: nat, courseIx: nat, kode: nat, creditIx: nat, semester: int,
    kindIx: nat, dosenPengampu: string, jumlahPeserta: nat, rataRataNilai: real,
    tingkatKelulusan: real, rataRataKehadiran: real)

  predicate ValidCourseDraw(d: CourseDraw) {
    && d.facultyIx < |Faculties| && d.prodiIx < |Programmes(d.facultyIx)| && d.courseIx < 8
    && 1001 <= d.kode <= 9999 && d.creditIx < |CreditChoices| && 1 <= d.semester <= 8
    && d.kindIx < |CourseKinds| && 15 <= d.jumlahPeserta <= 50
    && 65.0 <= d.rataRataNilai <= 85.0 && 80.0 <= d.tingkatKelulusan <= 100.0
    && 75.0 <= d.rataRataKehadiran <= 95.0
  }

  predicate ValidCourseDraws(count: nat, draws: seq<CourseDraw>) {
    |draws| == count && forall i :: 0 <= i < count ==> ValidCourseDraw(draws[i])
  }

  function CourseRow(d: CourseDraw): CoursePerformance
    requires ValidCourseDraw(d)
  {
    var prodi := Programmes(d.facultyIx)[d.prodiIx];
    LongCourseList(prodi);
    CoursePerformance(
      "MK" + Decimal(d.kode), CourseList(LongCourseLists, prodi)[d.courseIx], Faculties[d.facultyIx],
      prodi, CreditChoices[d.creditIx], d.semester, CourseKinds[d.kindIx], d.dosenPengampu,
      d.jumlahPeserta, d.rataRataNilai, d.tingkatKelulusan, d.rataRataKehadiran, TahunAkademik)
  }

  /** The batch `generate_course_performance(count)` appends. */
  function CourseRows(count: nat, draws: seq<CourseDraw>): seq<CoursePerformance>
    requires ValidCourseDraws(count, draws)
  {
    seq(count, i requires 0 <= i < count => CourseRow(draws[i]))
  }

  method BuildCourseRows(count: nat, draws: seq<CourseDraw>) returns (data: seq<CoursePerformance>)
    requires ValidCourseDraws(count, draws)
    ensures data == CourseRows(count, draws)
  {
    data := [];
    for i := 0 to count
      invariant data == CourseRows(count, draws)[..i]
    {
      data := data + [CourseRow(draws[i])];
    }
  }

  /** Each course belongs to a programme of its faculty, is named from that
      programme's list (or the default list), carries 2, 3 or 4 credits and
      has 15 to 50 participants. */
  lemma CourseRowsFacts(count: nat, draws: seq<CourseDraw>)
    requires ValidCourseDraws(count, draws)
    ensures |CourseRows(count, draws)| == count
    ensures forall r :: r in CourseRows(count, draws) ==>
      && r.fakultas in ProdiDict && r.programStudi in ProdiDict[r.fakultas]
      && r.namaMatkul in CourseList(LongCourseLists, r.programStudi)
      && r.sks in {2, 3, 4} && 1 <= r.semester <= 8 && 15 <= r.jumlahPeserta <= 50
  {
  }

  // ---------------------------------------------------------------------
  // the fabricated courses used when the parent read raises

  datatype FallbackCourseDraw = FallbackCourseDraw(facultyIx: nat, prodiIx: nat, courseIx: nat, jumlahPeserta: nat)

  predicate ValidFallbackCourseDraw(d: FallbackCourseDraw) {
    d.facultyIx < |Faculties| && d.prodiIx < |Programmes(d.facultyIx)| && d.courseIx < 8
    && 15 <= d.jumlahPeserta <= 50
  }

  predicate ValidFallbackCourses(draws: seq<FallbackCourseDraw>) {
    |draws| == 100 && forall i :: 0 <= i < 100 ==> ValidFallbackCourseDraw(draws[i])
  }

  /** `f"MK{1000 + i}"` */
  function FallbackCode(i: nat): string {
    "MK" + Decimal(1000 + i)
  }

  function FallbackCourse(i: nat, d: FallbackCourseDraw): CourseRef
    requires ValidFallbackCourseDraw(d)
  {
    var prodi := Programmes(d.facultyIx)[d.prodiIx];
    LongCourseList(prodi);
    CourseRef(FallbackCode(i), CourseList(LongCourseLists, prodi)[d.courseIx], Faculties[d.facultyIx],
              prodi, d.jumlahPeserta)
  }

  function FallbackCourses(draws: seq<FallbackCourseDraw>): (cs: seq<CourseRef>)
    requires ValidFallbackCourses(draws)
    ensures |cs| == 100
  {
    seq(100, i requires 0 <= i < 100 => FallbackCourse(i, draws[i]))
  }

  /** The loop that fills `courses_data`. */
  method BuildFallbackCourses(draws: seq<FallbackCourseDraw>) returns (courses: seq<CourseRef>)
    requires ValidFallbackCourses(draws)
    ensures courses == FallbackCourses(draws)
  {
    courses := [];
    for i := 0 to 100
      invariant courses == FallbackCourses(draws)[..i]
    {
      courses := courses + [FallbackCourse(i, draws[i])];
    }
  }

  /** The fabricated course codes MK1000..MK1099 are pairwise different, and
      every fabricated course is consistent with the catalog. */
  lemma FallbackCoursesFacts(draws: seq<FallbackCourseDraw>)
    requires ValidFallbackCourses(draws)
    ensures forall i, j :: 0 <= i < j < 100 ==> FallbackCourses(draws)[i].kodeMatkul != FallbackCourses(draws)[j].kodeMatkul
    ensures forall c :: c in FallbackCourses(draws) ==>
      c.fakultas in ProdiDict && c.programStudi in ProdiDict[c.fakultas] && 15 <= c.jumlahPeserta <= 50
  {
    forall i, j | 0 <= i < j < 100
      ensures FallbackCode(i) != FallbackCode(j)
    {
      DecimalValue(1000 + i);
      DecimalValue(1000 + j);
      assert FallbackCode(i)[2..] == Decimal(1000 + i);
      assert FallbackCode(j)[2..] == Decimal(1000 + j);
    }
  }

  /** `courses_df`: the sample read back, or the fabricated 100. */
  function CourseParents(read: Result<seq<CourseRef>>, fallback: seq<FallbackCourseDraw>): (cs: seq<CourseRef>)
    requires ValidFallbackCourses(fallback)
    ensures read.Failure? ==> |cs| == 100
  {
    if read.Success? then read.value else FallbackCourses(fallback)
  }

  // ---------------------------------------------------------------------
  // grade_distribution

  /** The six bucket draws `random.randint(0, int(total * p))`, the lecturer
      name and the semester. */
  datatype GradeDraw = GradeDraw(a: int, ab: int, b: int, bc: int, c: int, d: int, dosenPengampu: string, semesterIx: nat)

  /** `int(t * p)` for the bucket shares 0.15, 0.20, 0.25, 0.20, 0.15, 0.05,
      written as exact floors. */
  function Share(t: nat, percent: nat): nat {
    t * percent / 100
  }

  predicate ValidGradeDraw(t: nat, g: GradeDraw) {
    && 0 <= g.a <= Share(t, 15) && 0 <= g.ab <= Share(t, 20) && 0 <= g.b <= Share(t, 25)
    && 0 <= g.bc <= Share(t, 20) && 0 <= g.c <= Share(t, 15) && 0 <= g.d <= Share(t, 5)
    && g.semesterIx < |Semesters|
  }

  predicate ValidGradeDraws(parents: seq<CourseRef>, count: nat, draws: seq<GradeDraw>) {
    |draws| == count
    && (|parents| > 0 ==> forall i :: 0 <= i < count ==> ValidGradeDraw(parents[i % |parents|].jumlahPeserta, draws[i]))
  }

  function Assigned(g: GradeDraw): int {
    g.a + g.ab + g.b + g.bc + g.c + g.d
  }

  function GradeRow(course: CourseRef, g: GradeDraw): GradeDistribution
    requires g.semesterIx < |Semesters|
  {
    var t := course.jumlahPeserta;
    var e := if t - Assigned(g) > 0 then t - Assigned(g) else 0;
    GradeDistribution(
      course.kodeMatkul, course.namaMatkul, course.fakultas, course.programStudi, g.dosenPengampu,
      g.a, g.ab, g.b, g.bc, g.c, g.d, e, t, Semesters[g.semesterIx], TahunAkademik)
  }

  /** The batch `generate_grade_distribution(count)` appends: row `i`
      describes course `i mod n`. */
  function GradeRows(parents: seq<CourseRef>, count: nat, draws: seq<GradeDraw>): seq<GradeDistribution>
    requires ValidGradeDraws(parents, count, draws)
  {
    if |parents| == 0 then []
    else seq(count, i requires 0 <= i < count => GradeRow(parents[i % |parents|], draws[i]))
  }

  method BuildGradeRows(parents: seq<CourseRef>, count: nat, draws: seq<GradeDraw>) returns (data: seq<GradeDistribution>)
    requires ValidGradeDraws(parents, count, draws)
    ensures data == GradeRows(parents, count, draws)
  {
    data := [];
    for i := 0 to count
      invariant |parents| > 0 ==> data == GradeRows(parents, count, draws)[..i]
      invariant |parents| == 0 ==> data == []
    {
      if |parents| > 0 {
        data := data + [GradeRow(parents[i % |parents|], draws[i])];
      }
    }
  }

  /** The six shares add up to at most the whole class. */
  lemma AssignedAtMostTotal(t: nat, g: GradeDraw)
    requires ValidGradeDraw(t, g)
    ensures 0 <= Assigned(g) <= t
  {
    assert 100 * Share(t, 15) <= t * 15;
    assert 100 * Share(t, 20) <= t * 20;
    assert 100 * Share(t, 25) <= t * 25;
    assert 100 * Share(t, 5) <= t * 5;
  }

  /** The seven grade buckets are non-negative and add up exactly to the
      class size: the `max(0, ...)` guard on jumlah_e never fires. Row `i`
      describes parent course `i mod n`. */
  lemma GradeBucketsSumToTotal(parents: seq<CourseRef>, count: nat, draws: seq<GradeDraw>)
    requires ValidGradeDraws(parents, count, draws)
    ensures |GradeRows(parents, count, draws)| == if |parents| > 0 then count else 0
    ensures forall i :: 0 <= i < |GradeRows(parents, count, draws)| ==>
      var r := GradeRows(parents, count, draws)[i];
      && r.kodeMatkul == parents[i % |parents|].kodeMatkul
      && r.totalMahasiswa == parents[i % |parents|].jumlahPeserta
      && r.jumlahA >= 0 && r.jumlahAB >= 0 && r.jumlahB >= 0 && r.jumlahBC >= 0
      && r.jumlahC >= 0 && r.jumlahD >= 0 && r.jumlahE >= 0
      && r.jumlahE == r.totalMahasiswa - (r.jumlahA + r.jumlahAB + r.jumlahB + r.jumlahBC + r.jumlahC + r.jumlahD)
      && r.jumlahA + r.jumlahAB + r.jumlahB + r.jumlahBC + r.jumlahC + r.jumlahD + r.jumlahE == r.totalMahasiswa
  {
    if |parents| > 0 {
      forall i | 0 <= i < count
        ensures Assigned(draws[i]) <= parents[i % |parents|].jumlahPeserta
      {
        AssignedAtMostTotal(parents[i % |parents|].jumlahPeserta, draws[i]);
      }
    }
  }

  // ---------------------------------------------------------------------
  // academic_trends

  const Periods: seq<string> := ["2023-1", "2023-2", "2024-1", "2024-2"]
  const Metrics: seq<string> := ["IPK Rata-rata", "Tingkat Kelulusan", "Tingkat Kehadiran", "Jumlah Mahasiswa Baru", "Dropout Rate"]
  const Categories: seq<string> := ["Akademik", "Operasional", "Keuangan"]

  /** The unit written next to each metric. */
  function Unit(metric: string): string {
    if metric == "IPK Rata-rata" then "Skala 4.0"
    else if metric in {"Tingkat Kelulusan", "Tingkat Kehadiran"} then "Persen"
    else if metric == "Jumlah Mahasiswa Baru" then "Orang"
    else "Persen"
  }

  /** The range each metric's value is drawn from; new-student counts are whole numbers. */
  predicate InMetricRange(metric: string, nilai: real) {
    if metric == "IPK Rata-rata" then 2.8 <= nilai <= 3.8
    else if metric in {"Tingkat Kelulusan", "Tingkat Kehadiran"} then 75.0 <= nilai <= 95.0
    else if metric == "Jumlah Mahasiswa Baru" then 50.0 <= nilai <= 200.0 && nilai.Floor as real == nilai
    else 2.0 <= nilai <= 8.0
  }

  datatype MetricDraw = MetricDraw(nilai: real, persentasePerubahan: real, categoryIx: nat)

  /** `random.sample(metrics, 3)` as three distinct positions, and the draws for each. */
  datatype PeriodDraw = PeriodDraw(sample: seq<nat>, metrics: seq<MetricDraw>)

  predicate ValidPeriodDraw(p: PeriodDraw) {
    && |p.sample| == 3 && |p.metrics| == 3
    && (forall m :: 0 <= m < 3 ==> p.sample[m] < |Metrics|)
    && (forall m, n :: 0 <= m < n < 3 ==> p.sample[m] != p.sample[n])
    && (forall m :: 0 <= m < 3 ==>
          && InMetricRange(Metrics[p.sample[m]], p.metrics[m].nilai)
          && -10.0 <= p.metrics[m].persentasePerubahan <= 15.0
          && p.metrics[m].categoryIx < |Categories|)
  }

  predicate ValidProgrammeDraws(ds: seq<PeriodDraw>) {
    |ds| == |Periods| && forall k :: 0 <= k < |Periods| ==> ValidPeriodDraw(ds[k])
  }

  predicate ValidFacultyDraws(fi: nat, ds: seq<seq<PeriodDraw>>)
    requires fi < |Faculties|
  {
    |ds| == |Programmes(fi)| && forall p :: 0 <= p < |ds| ==> ValidProgrammeDraws(ds[p])
  }

  /** Draws for every faculty, programme and period. */
  predicate ValidTrendDraws(draws: seq<seq<seq<PeriodDraw>>>) {
    |draws| == |Faculties| && forall f :: 0 <= f < |Faculties| ==> ValidFacultyDraws(f, draws[f])
  }

  function TrendRow(fakultas: string, prodi: string, periode: string, metric: string, d: MetricDraw): AcademicTrend
    requires d.categoryIx < |Categories|
  {
    AcademicTrend(
      periode, fakultas, prodi, metric, d.nilai, Unit(metric), d.persentasePerubahan,
      Categories[d.categoryIx], "Trend " + metric + " untuk " + prodi + " periode " + periode,
      TahunAkademik)
  }

  /** Innermost loop: the three sampled metrics of one period. */
  function PeriodTrends(fakultas: string, prodi: string, periode: string, p: PeriodDraw): seq<AcademicTrend>
    requires ValidPeriodDraw(p)
  {
    seq(3, m requires 0 <= m < 3 => TrendRow(fakultas, prodi, periode, Metrics[p.sample[m]], p.metrics[m]))
  }

  function ProgrammeBlocks(fakultas: string, prodi: string, ds: seq<PeriodDraw>): seq<seq<AcademicTrend>>
    requires ValidProgrammeDraws(ds)
  {
    seq(|Periods|, k requires 0 <= k < |Periods| => PeriodTrends(fakultas, prodi, Periods[k], ds[k]))
  }

  function FacultyBlocks(fi: nat, ds: seq<seq<PeriodDraw>>): seq<seq<AcademicTrend>>
    requires fi < |Faculties| && ValidFacultyDraws(fi, ds)
  {
    seq(|ds|, p requires 0 <= p < |ds| => Concat(ProgrammeBlocks(Faculties[fi], Programmes(fi)[p], ds[p])))
  }

  function TrendBlocks(draws: seq<seq<seq<PeriodDraw>>>): seq<seq<AcademicTrend>>
    requires ValidTrendDraws(draws)
  {
    seq(|Faculties|, f requires 0 <= f < |Faculties| => Concat(FacultyBlocks(f, draws[f])))
  }

  /** Everything `generate_academic_trends` appends. */
  function TrendRows(draws: seq<seq<seq<PeriodDraw>>>): seq<AcademicTrend>
    requires ValidTrendDraws(draws)
  {
    Concat(TrendBlocks(draws))
  }

  method AppendPeriodTrends(data: seq<AcademicTrend>, fakultas: string, prodi: string, periode: string, p: PeriodDraw)
    returns (out: seq<AcademicTrend>)
    requires ValidPeriodDraw(p)
    ensures out == data + PeriodTrends(fakultas, prodi, periode, p)
  {
    out := data;
    for m := 0 to 3
      invariant out == data + PeriodTrends(fakultas, prodi, periode, p)[..m]
    {
      out := out + [TrendRow(fakultas, prodi, periode, Metrics[p.sample[m]], p.metrics[m])];
    }
  }

  method AppendProgrammeTrends(data: seq<AcademicTrend>, fakultas: string, prodi: string, ds: seq<PeriodDraw>)
    returns (out: seq<AcademicTrend>)
    requires ValidProgrammeDraws(ds)
    ensures out == data + Concat(ProgrammeBlocks(fakultas, prodi, ds))
  {
    hide PeriodTrends, TrendRow;
    var blocks := ProgrammeBlocks(fakultas, prodi, ds);
    out := data;
    for k := 0 to |Periods|
      invariant out == data + Concat(blocks[..k])
    {
      ConcatStep(blocks, k);
      out := AppendPeriodTrends(out, fakultas, prodi, Periods[k], ds[k]);
    }
    assert blocks[..|Periods|] == blocks;
  }

  method AppendFacultyTrends(data: seq<AcademicTrend>, fi: nat, ds: seq<seq<PeriodDraw>>)
    returns (out: seq<AcademicTrend>)
    requires fi < |Faculties| && ValidFacultyDraws(fi, ds)
    ensures out == data + Concat(FacultyBlocks(fi, ds))
  {
    hide ProgrammeBlocks, PeriodTrends, TrendRow;
    var blocks := FacultyBlocks(fi, ds);
    out := data;
    for p := 0 to |ds|
      invariant out == data + Concat(blocks[..p])
    {
      ConcatStep(blocks, p);
      out := AppendProgrammeTrends(out, Faculties[fi], Programmes(fi)[p], ds[p]);
    }
    assert blocks[..|ds|] == blocks;
  }

  /** The four nested loops of `generate_academic_trends`. */
  method BuildTrendRows(draws: seq<seq<seq<PeriodDraw>>>) returns (data: seq<AcademicTrend>)
    requires ValidTrendDraws(draws)
    ensures data == TrendRows(draws)
  {
    hide FacultyBlocks, ProgrammeBlocks, PeriodTrends, TrendRow;
    var blocks := TrendBlocks(draws);
    data := [];
    for f := 0 to |Faculties|
      invariant data == Concat(blocks[..f])
    {
      ConcatStep(blocks, f);
      data := AppendFacultyTrends(data, f, draws[f]);
    }
    assert blocks[..|Faculties|] == blocks;
  }

  /** One programme contributes 12 rows: three per period. */
  lemma ProgrammeTrendCount(fakultas: string, prodi: string, ds: seq<PeriodDraw>)
    requires ValidProgrammeDraws(ds)
    ensures |Concat(ProgrammeBlocks(fakultas, prodi, ds))| == 12
  {
    ConcatUniform(ProgrammeBlocks(fakultas, prodi, ds), 3);
  }

  lemma FacultyTrendCount(fi: nat, ds: seq<seq<PeriodDraw>>)
    requires fi < |Faculties| && ValidFacultyDraws(fi, ds)
    ensures |Concat(FacultyBlocks(fi, ds))| == 12 * |Programmes(fi)|
  {
    var blocks := FacultyBlocks(fi, ds);
    forall p | 0 <= p < |blocks|
      ensures |blocks[p]| == 12
    {
      ProgrammeTrendCount(Faculties[fi], Programmes(fi)[p], ds[p]);
    }
    ConcatUniform(blocks, 12);
  }

  lemma {:induction false} TrendBlocksLength(draws: seq<seq<seq<PeriodDraw>>>, n: nat)
    requires ValidTrendDraws(draws) && n <= |Faculties|
    ensures TotalLength(TrendBlocks(draws)[..n]) == 12 * ProgrammesBefore(n)
  {
    if n > 0 {
      var blocks := TrendBlocks(draws);
      assert blocks[..n][..n - 1] == blocks[..n - 1];
      TrendBlocksLength(draws, n - 1);
      FacultyTrendCount(n - 1, draws[n - 1]);
    }
  }

  /** `count` plays no part: the table always grows by 12 rows for each
      of the 16 programmes, 192 in all. */
  lemma TrendCount(draws: seq<seq<seq<PeriodDraw>>>)
    requires ValidTrendDraws(draws)
    ensures |TrendRows(draws)| == 192
  {
    var blocks := TrendBlocks(draws);
    ConcatLength(blocks);
    TrendBlocksLength(draws, |Faculties|);
    assert blocks[..|Faculties|] == blocks;
    assert TotalProgrammes() == 16;
  }

  /** Within one period of one programme the three metrics differ. */
  lemma PeriodMetricsDistinct(fakultas: string, prodi: string, periode: string, p: PeriodDraw)
    requires ValidPeriodDraw(p)
    ensures forall m, n :: 0 <= m < n < 3 ==>
      PeriodTrends(fakultas, prodi, periode, p)[m].metrik != PeriodTrends(fakultas, prodi, periode, p)[n].metrik
  {
  }

  predicate WellFormedTrend(r: AcademicTrend) {
    && r.fakultas in ProdiDict && r.programStudi in ProdiDict[r.fakultas]
    && r.periode in Periods && r.metrik in Metrics
    && r.satuan == (if r.metrik == "Jumlah Mahasiswa Baru" then "Orang"
                    else if r.metrik == "IPK Rata-rata" then "Skala 4.0" else "Persen")
    && InMetricRange(r.metrik, r.nilai)
    && -10.0 <= r.persentasePerubahan <= 15.0 && r.kategori in Categories
    && r.deskripsi == "Trend " + r.metrik + " untuk " + r.programStudi + " periode " + r.periode
  }

  lemma ProgrammeTrendsWellFormed(fi: nat, p: nat, ds: seq<PeriodDraw>)
    requires fi < |Faculties| && p < |Programmes(fi)| && ValidProgrammeDraws(ds)
    ensures forall r :: r in Concat(ProgrammeBlocks(Faculties[fi], Programmes(fi)[p], ds)) ==> WellFormedTrend(r)
  {
    var blocks := ProgrammeBlocks(Faculties[fi], Programmes(fi)[p], ds);
    forall r | r in Concat(blocks)
      ensures WellFormedTrend(r)
    {
      InConcat(blocks, r);
    }
  }

  /** Every trend row names a programme of its own faculty, one of the four
      periods and one of the five metrics, carries that metric's unit and
      a value from its range, and describes itself accordingly. */
  lemma TrendRowsWellFormed(draws: seq<seq<seq<PeriodDraw>>>)
    requires ValidTrendDraws(draws)
    ensures forall r :: r in TrendRows(draws) ==> WellFormedTrend(r)
  {
    var blocks := TrendBlocks(draws);
    forall r | r in Concat(blocks)
      ensures WellFormedTrend(r)
    {
      InConcat(blocks, r);
      var f :| 0 <= f < |blocks| && r in blocks[f];
      var fblocks := FacultyBlocks(f, draws[f]);
      InConcat(fblocks, r);
      var p :| 0 <= p < |fblocks| && r in fblocks[p];
      ProgrammeTrendsWellFormed(f, p, draws[f][p]);
    }
  }

  // ---------------------------------------------------------------------
  // the generator

  datatype AkademikDraws = AkademikDraws(
    courses: seq<CourseDraw>,
    gradeRead: Result<seq<CourseRef>>, gradeFallback: seq<FallbackCourseDraw>, grades: seq<GradeDraw>,
    trends: seq<seq<seq<PeriodDraw>>>)

  /** What `generate_all` needs: draws in range, and the grade read taken
      from the course table once its 200 new courses are in (`cp` is the
      table before the call). */
  predicate AllReady(cp: seq<CoursePerformance>, d: AkademikDraws) {
    && ValidCourseDraws(200, d.courses)
    && ReadOf(d.gradeRead, CourseRefs(cp + CourseRows(200, d.courses)), Some(100))
    && ValidFallbackCourses(d.gradeFallback)
    && ValidGradeDraws(CourseParents(d.gradeRead, d.gradeFallback), 150, d.grades)
    && ValidTrendDraws(d.trends)
  }

  /** The academic tables of the datamart. */
  datatype AcademicTables = AcademicTables(courses: seq<CoursePerformance>, grades: seq<GradeDistribution>, trends: seq<AcademicTrend>)

  /** The three academic tables after `generate_all`, given what they held
      before: each has its batch appended. */
  function Generated(before: AcademicTables, d: AkademikDraws): AcademicTables
    requires AllReady(before.courses, d)
  {
    AcademicTables(
      before.courses + CourseRows(200, d.courses),
      before.grades + GradeRows(CourseParents(d.gradeRead, d.gradeFallback), 150, d.grades),
      before.trends + TrendRows(d.trends))
  }

  class AkademikGenerator {
    const db: Datamart

    constructor (db: Datamart)
      ensures this.db == db
    {
      this.db := db;
    }

    method GenerateCoursePerformance(count: nat, draws: seq<CourseDraw>)
      requires ValidCourseDraws(count, draws)
      modifies db`coursePerformance
      ensures db.coursePerformance == old(db.coursePerformance) + CourseRows(count, draws)
    {
      var data := BuildCourseRows(count, draws);
      db.coursePerformance := db.coursePerformance + data;
    }

    method GenerateGradeDistribution(count: nat, read: Result<seq<CourseRef>>,
                                     fallback: seq<FallbackCourseDraw>, draws: seq<GradeDraw>)
      requires ReadOf(read, CourseRefs(db.coursePerformance), Some(100))
      requires ValidFallbackCourses(fallback) && ValidGradeDraws(CourseParents(read, fallback), count, draws)
      modifies db`gradeDistribution
      ensures db.gradeDistribution == old(db.gradeDistribution) + GradeRows(CourseParents(read, fallback), count, draws)
    {
      var courses: seq<CourseRef>;
      if read.Success? {
        courses := read.value;
      } else {
        courses := BuildFallbackCourses(fallback);
      }
      var data := BuildGradeRows(courses, count, draws);
      db.gradeDistribution := db.gradeDistribution + data;
    }

    /** `count` is accepted and ignored, as in the source. */
    method GenerateAcademicTrends(count: nat, draws: seq<seq<seq<PeriodDraw>>>)
      requires ValidTrendDraws(draws)
      modifies db`academicTrends
      ensures db.academicTrends == old(db.academicTrends) + TrendRows(draws)
    {
      var data := BuildTrendRows(draws);
      db.academicTrends := db.academicTrends + data;
    }

    /** 200 courses, then 150 grade distributions over a sample of the
        course table as it now stands, then the trends. */
    method GenerateAll(ghost cp: seq<CoursePerformance>, d: AkademikDraws)
      requires db.coursePerformance == cp && AllReady(cp, d)
      modifies db`coursePerformance, db`gradeDistribution, db`academicTrends
      ensures AcademicTables(db.coursePerformance, db.gradeDistribution, db.academicTrends)
        == Generated(AcademicTables(old(db.coursePerformance), old(db.gradeDistribution), old(db.academicTrends)), d)
    {
      GenerateCoursePerformance(200, d.courses);
      GenerateGradeDistribution(150, d.gradeRead, d.gradeFallback, d.grades);
      GenerateAcademicTrends(100, d.trends);
    }
  }
}
