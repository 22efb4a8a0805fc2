/** The orchestrator `AcademicDataGenerator`: the PostgreSQL connection URL
    built from the environment, the five domain generators run one after
    the other over one datamart, and the record summary over all fifteen
    tables, grouped into five collections. */
module DataGenerator {
  import opened Wrappers
  import opened Datamart
  import M = Mahasiswa
  import D = Dosen
  import A = Akademik
  import K = Keuangan
  import I = Institusi

  // ---------------------------------------------------------------------
  // _connect_db

  /** `os.getenv(key, default)`: a variable that is set (even to the empty
      string) wins over the default. */
  function Getenv(env: map<string, string>, key: string, default: string): string {
    if key in env then env[key] else default
  }

  const UrlScheme := "postgresql://"

  /** `f"postgresql://{user}:{password}@{host}:{port}/{dbname}"`: every part
      lands at the position the separators before it leave for it. */
  function FormatUrl(user: string, password: string, host: string, port: string, dbname: string): (url: string)
    ensures var p := |UrlScheme|;
      var q := p + |user| + 1;
      var h := q + |password| + 1;
      var o := h + |host| + 1;
      var b := o + |port| + 1;
      && |url| == b + |dbname|
      && url[..p] == UrlScheme
      && url[p..p + |user|] == user && url[p + |user|] == ':'
      && url[q..q + |password|] == password && url[q + |password|] == '@'
      && url[h..h + |host|] == host && url[h + |host|] == ':'
      && url[o..o + |port|] == port && url[o + |port|] == '/'
      && url[b..] == dbname
  {
    UrlScheme + user + ":" + password + "@" + host + ":" + port + "/" + dbname
  }

  /** The URL `_connect_db` hands to `create_engine`. */
  function ConnectionUrl(env: map<string, string>): string {
    FormatUrl(Getenv(env, "POSTGRES_USER", "postgres"), Getenv(env, "POSTGRES_PASSWORD", "academic123"),
              Getenv(env, "POSTGRES_HOST", "postgres"), Getenv(env, "POSTGRES_PORT", "5432"),
              Getenv(env, "POSTGRES_DB", "academic_datamart"))
  }

  /** With no variable set, the documented defaults are used: user
      `postgres`, password `academic123`, host `postgres`, port `5432`,
      database `academic_datamart`. */
  lemma DefaultConnectionUrl()
    ensures ConnectionUrl(map[]) == FormatUrl("postgres", "academic123", "postgres", "5432", "academic_datamart")
  {
  }

  /** The database name is whatever follows the last separator, and comes
      from `POSTGRES_DB` whenever that variable is set; the user name
      follows the scheme and comes from `POSTGRES_USER` whenever set. */
  lemma ConnectionUrlUsesEnvironment(env: map<string, string>)
    ensures var url := ConnectionUrl(env);
      && url[..|UrlScheme|] == UrlScheme
      && ("POSTGRES_DB" in env ==> url[|url| - |env["POSTGRES_DB"]|..] == env["POSTGRES_DB"])
      && ("POSTGRES_DB" !in env ==> url[|url| - 17..] == "academic_datamart")
      && ("POSTGRES_USER" in env ==> url[|UrlScheme|..|UrlScheme| + |env["POSTGRES_USER"]|] == env["POSTGRES_USER"])
  {
    hide FormatUrl;
    var user := Getenv(env, "POSTGRES_USER", "postgres");
    var dbname := Getenv(env, "POSTGRES_DB", "academic_datamart");
    var url := FormatUrl(user, Getenv(env, "POSTGRES_PASSWORD", "academic123"),
                         Getenv(env, "POSTGRES_HOST", "postgres"), Getenv(env, "POSTGRES_PORT", "5432"), dbname);
    assert ConnectionUrl(env) == url;
    assert url[|url| - |dbname|..] == dbname;
    assert "POSTGRES_DB" !in env ==> |dbname| == 17;
    assert url[|UrlScheme|..|UrlScheme| + |user|] == user;
  }

  // ---------------------------------------------------------------------
  // get_data_summary

  /** `all_tables`, in the order the summary visits them. */
  const AllTables: seq<string> := [
    "student_performance", "student_attendance", "student_finance",
    "lecturer_profile", "lecturer_teaching", "lecturer_activity",
    "course_performance", "grade_distribution", "academic_trends",
    "revenue_summary", "payment_analysis", "financial_kpi",
    "faculty_statistics", "university_performance", "accreditation_status"]

  /** The keys of `collection_counts`; the summary keeps the count of
      collection `CollectionNames[c]` at position `c`. */
  const CollectionNames: seq<string> := ["MAHASISWA", "DOSEN", "AKADEMIK", "KEUANGAN", "INSTITUSI"]

  /** The `if i < 3 ... elif i < 12 ... else` chain: the collection of the
      `i`-th table is `i / 3`, so each collection receives three tables. */
  function CollectionIndex(i: nat): (c: nat)
    ensures c < |CollectionNames|
    ensures i < |AllTables| ==> c == i / 3
  {
    if i < 3 then 0 else if i < 6 then 1 else if i < 9 then 2 else if i < 12 then 3 else 4
  }

  /** `SELECT COUNT(*)` of every table, in `all_tables` order. */
  function TableSizes(db: Datamart): (sizes: seq<nat>)
    reads db
    ensures |sizes| == |AllTables|
  {
    [|db.studentPerformance|, |db.studentAttendance|, |db.studentFinance|,
     |db.lecturerProfile|, |db.lecturerTeaching|, |db.lecturerActivity|,
     |db.coursePerformance|, |db.gradeDistribution|, |db.academicTrends|,
     |db.revenueSummary|, |db.paymentAnalysis|, |db.financialKpi|,
     |db.facultyStatistics|, |db.universityPerformance|, |db.accreditationStatus|]
  }

  /** What table `i` contributes: its count, or nothing when the query raised. */
  function Counted(sizes: seq<nat>, failed: seq<bool>, i: nat): nat
    requires |failed| == |sizes| && i < |sizes|
  {
    if failed[i] then 0 else sizes[i]
  }

  /** `total_records` after the first `n` tables. */
  function RecordsBefore(sizes: seq<nat>, failed: seq<bool>, n: nat): nat
    requires |failed| == |sizes| && n <= |sizes|
  {
    if n == 0 then 0 else RecordsBefore(sizes, failed, n - 1) + Counted(sizes, failed, n - 1)
  }

  /** `collection_counts[CollectionNames[c]]` after the first `n` tables. */
  function CollectionBefore(sizes: seq<nat>, failed: seq<bool>, c: nat, n: nat): nat
    requires |failed| == |sizes| && n <= |sizes|
  {
    if n == 0 then 0
    else CollectionBefore(sizes, failed, c, n - 1) + (if CollectionIndex(n - 1) == c then Counted(sizes, failed, n - 1) else 0)
  }

  /** The reference definition of a collection's total: the counted rows of
      the tables `lo .. hi-1`. */
  function WindowSum(sizes: seq<nat>, failed: seq<bool>, lo: nat, hi: nat): nat
    requires |failed| == |sizes| && hi <= |sizes|
    decreases hi
  {
    if hi <= lo then 0 else WindowSum(sizes, failed, lo, hi - 1) + Counted(sizes, failed, hi - 1)
  }

  /** The plain sum of all table sizes. */
  function SizeSum(sizes: seq<nat>, n: nat): nat
    requires n <= |sizes|
  {
    if n == 0 then 0 else SizeSum(sizes, n - 1) + sizes[n - 1]
  }

  function Sum5(cs: seq<nat>): nat
    requires |cs| == 5
  {
    cs[0] + cs[1] + cs[2] + cs[3] + cs[4]
  }

  /** At every point of the loop the five collection counts add up to the
      running total: each counted table is added to both, once. */
  lemma {:induction false} CollectionsSumToTotal(sizes: seq<nat>, failed: seq<bool>, n: nat)
    requires |failed| == |sizes| == |AllTables| && n <= |sizes|
    ensures CollectionBefore(sizes, failed, 0, n) + CollectionBefore(sizes, failed, 1, n) + CollectionBefore(sizes, failed, 2, n)
          + CollectionBefore(sizes, failed, 3, n) + CollectionBefore(sizes, failed, 4, n)
         == RecordsBefore(sizes, failed, n)
  {
    if n > 0 {
      CollectionsSumToTotal(sizes, failed, n - 1);
    }
  }

  /** Collection `c` has received exactly the counted tables `3c`, `3c+1`
      and `3c+2` among the first `n`. */
  lemma {:induction false} CollectionWindow(sizes: seq<nat>, failed: seq<bool>, c: nat, n: nat)
    requires |failed| == |sizes| == |AllTables| && c < |CollectionNames| && n <= |sizes|
    ensures CollectionBefore(sizes, failed, c, n) == WindowSum(sizes, failed, 3 * c, if n < 3 * c + 3 then n else 3 * c + 3)
  {
    if n > 0 {
      CollectionWindow(sizes, failed, c, n - 1);
      if n - 1 < 3 * c {
        assert CollectionIndex(n - 1) != c;
      } else if n - 1 < 3 * c + 3 {
        assert CollectionIndex(n - 1) == c;
      } else {
        assert CollectionIndex(n - 1) != c;
      }
    }
  }

  /** A failed query never adds; with no failure every row is counted. */
  lemma {:induction false} RecordsAtMostSizes(sizes: seq<nat>, failed: seq<bool>, n: nat)
    requires |failed| == |sizes| && n <= |sizes|
    ensures RecordsBefore(sizes, failed, n) <= SizeSum(sizes, n)
    ensures (forall i :: 0 <= i < n ==> !failed[i]) ==> RecordsBefore(sizes, failed, n) == SizeSum(sizes, n)
  {
    if n > 0 {
      RecordsAtMostSizes(sizes, failed, n - 1);
    }
  }

  // ---------------------------------------------------------------------
  // the orchestrator

  /** Everything the five `generate_all` calls draw and read. */
  datatype AllDraws = AllDraws(
    mahasiswa: M.MahasiswaDraws, dosen: D.DosenDraws, akademik: A.AkademikDraws,
    keuangan: K.KeuanganDraws, institusi: I.InstitusiDraws)

  /** Every draw in range, and every read as it must come back from the
      tables as they stand when that read runs: a domain's children read the
      parents it has just appended. */
  predicate ValidRun(sp: seq<StudentPerformance>, lp: seq<LecturerProfile>, cp: seq<CoursePerformance>, d: AllDraws) {
    && M.AllReady(sp, d.mahasiswa) && D.AllReady(lp, d.dosen) && A.AllReady(cp, d.akademik)
    && K.AllReady(d.keuangan)
    && I.AllReady(sp + M.PerformanceRows(500, d.mahasiswa.performance), d.institusi)
  }

  class AcademicDataGenerator {
    const db: Datamart
    const mahasiswa: M.MahasiswaGenerator
    const dosen: D.DosenGenerator
    const akademik: A.AkademikGenerator
    const keuangan: K.KeuanganGenerator
    const institusi: I.InstitusiGenerator

    /** All five generators share the one engine. */
    predicate Wired() {
      mahasiswa.db == db && dosen.db == db && akademik.db == db && keuangan.db == db && institusi.db == db
    }

    constructor (db: Datamart)
      ensures this.db == db && Wired()
    {
      this.db := db;
      mahasiswa := new M.MahasiswaGenerator(db);
      dosen := new D.DosenGenerator(db);
      akademik := new A.AkademikGenerator(db);
      keuangan := new K.KeuanganGenerator(db);
      institusi := new I.InstitusiGenerator(db);
    }

    /** The domains in order: students, lecturers, academics, finance,
        institution. Every table ends as its domain's batch appended to what
        it held (faculty statistics: updated in place); `BatchSizes` gives
        the size of every batch. */
    method GenerateAllDatamarts(today: int, d: AllDraws)
      requires Wired()
      requires M.AllReady(db.studentPerformance, d.mahasiswa) && D.AllReady(db.lecturerProfile, d.dosen)
      requires A.AllReady(db.coursePerformance, d.akademik) && K.AllReady(d.keuangan)
      requires I.AllReady(db.studentPerformance + M.PerformanceRows(500, d.mahasiswa.performance), d.institusi)
      modifies db
      ensures M.StudentTables(db.studentPerformance, db.studentAttendance, db.studentFinance) == M.Generated(M.StudentTables(old(db.studentPerformance), old(db.studentAttendance), old(db.studentFinance)), d.mahasiswa)
      ensures D.LecturerTables(db.lecturerProfile, db.lecturerTeaching, db.lecturerActivity) == D.Generated(D.LecturerTables(old(db.lecturerProfile), old(db.lecturerTeaching), old(db.lecturerActivity)), d.dosen)
      ensures A.AcademicTables(db.coursePerformance, db.gradeDistribution, db.academicTrends) == A.Generated(A.AcademicTables(old(db.coursePerformance), old(db.gradeDistribution), old(db.academicTrends)), d.akademik)
      ensures K.FinancialTables(db.revenueSummary, db.paymentAnalysis, db.financialKpi) == K.Generated(K.FinancialTables(old(db.revenueSummary), old(db.paymentAnalysis), old(db.financialKpi)), d.keuangan)
      ensures I.InstitutionalTables(db.facultyStatistics, db.universityPerformance, db.accreditationStatus) == I.Generated(I.InstitutionalTables(old(db.facultyStatistics), old(db.universityPerformance), old(db.accreditationStatus)), db.studentPerformance, db.lecturerProfile, today, d.institusi)
    {
      hide M.AllReady, D.AllReady, A.AllReady, K.AllReady, I.AllReady, M.PerformanceRows;
      hide M.Generated, D.Generated, A.Generated, K.Generated, I.Generated;
      ghost var students, lecturers, academics := M.StudentTables(db.studentPerformance, db.studentAttendance, db.studentFinance), D.LecturerTables(db.lecturerProfile, db.lecturerTeaching, db.lecturerActivity), A.AcademicTables(db.coursePerformance, db.gradeDistribution, db.academicTrends);
      ghost var finances, institution := K.FinancialTables(db.revenueSummary, db.paymentAnalysis, db.financialKpi), I.InstitutionalTables(db.facultyStatistics, db.universityPerformance, db.accreditationStatus);
      mahasiswa.GenerateAll(db.studentPerformance, d.mahasiswa);
      M.GeneratedPerformance(students, d.mahasiswa);
      students := M.StudentTables(db.studentPerformance, db.studentAttendance, db.studentFinance);
      assert D.LecturerTables(db.lecturerProfile, db.lecturerTeaching, db.lecturerActivity) == lecturers && A.AcademicTables(db.coursePerformance, db.gradeDistribution, db.academicTrends) == academics;
      assert K.FinancialTables(db.revenueSummary, db.paymentAnalysis, db.financialKpi) == finances && I.InstitutionalTables(db.facultyStatistics, db.universityPerformance, db.accreditationStatus) == institution;
      dosen.GenerateAll(db.lecturerProfile, d.dosen);
      lecturers := D.LecturerTables(db.lecturerProfile, db.lecturerTeaching, db.lecturerActivity);
      assert M.StudentTables(db.studentPerformance, db.studentAttendance, db.studentFinance) == students && A.AcademicTables(db.coursePerformance, db.gradeDistribution, db.academicTrends) == academics;
      assert K.FinancialTables(db.revenueSummary, db.paymentAnalysis, db.financialKpi) == finances && I.InstitutionalTables(db.facultyStatistics, db.universityPerformance, db.accreditationStatus) == institution;
      akademik.GenerateAll(db.coursePerformance, d.akademik);
      academics := A.AcademicTables(db.coursePerformance, db.gradeDistribution, db.academicTrends);
      assert M.StudentTables(db.studentPerformance, db.studentAttendance, db.studentFinance) == students && D.LecturerTables(db.lecturerProfile, db.lecturerTeaching, db.lecturerActivity) == lecturers;
      assert K.FinancialTables(db.revenueSummary, db.paymentAnalysis, db.financialKpi) == finances && I.InstitutionalTables(db.facultyStatistics, db.universityPerformance, db.accreditationStatus) == institution;
      keuangan.GenerateAll(d.keuangan);
      finances := K.FinancialTables(db.revenueSummary, db.paymentAnalysis, db.financialKpi);
      assert M.StudentTables(db.studentPerformance, db.studentAttendance, db.studentFinance) == students && D.LecturerTables(db.lecturerProfile, db.lecturerTeaching, db.lecturerActivity) == lecturers;
      assert A.AcademicTables(db.coursePerformance, db.gradeDistribution, db.academicTrends) == academics && I.InstitutionalTables(db.facultyStatistics, db.universityPerformance, db.accreditationStatus) == institution;
      institusi.GenerateAll(today, db.studentPerformance, d.institusi);
      assert M.StudentTables(db.studentPerformance, db.studentAttendance, db.studentFinance) == students && D.LecturerTables(db.lecturerProfile, db.lecturerTeaching, db.lecturerActivity) == lecturers;
      assert A.AcademicTables(db.coursePerformance, db.gradeDistribution, db.academicTrends) == academics && K.FinancialTables(db.revenueSummary, db.paymentAnalysis, db.financialKpi) == finances;
    }

    /** `get_data_summary`: `failed[i]` says whether the count query of
        table `i` raised. The five collection totals partition the grand
        total, collection `c` holds exactly tables `3c .. 3c+2`, a failed
        table contributes nothing, and with no failure every row of the
        datamart is counted. */
    method GetDataSummary(failed: seq<bool>) returns (total: nat, perCollection: seq<nat>)
      requires |failed| == |AllTables|
      ensures |perCollection| == |CollectionNames|
      ensures forall c :: 0 <= c < |CollectionNames| ==>
        perCollection[c] == Counted(TableSizes(db), failed, 3 * c) + Counted(TableSizes(db), failed, 3 * c + 1)
                          + Counted(TableSizes(db), failed, 3 * c + 2)
      ensures Sum5(perCollection) == total
      ensures total <= SizeSum(TableSizes(db), |AllTables|)
      ensures (forall i :: 0 <= i < |AllTables| ==> !failed[i]) ==> total == SizeSum(TableSizes(db), |AllTables|)
    {
      var sizes := TableSizes(db);
      total := 0;
      perCollection := [0, 0, 0, 0, 0];
      for i := 0 to |AllTables|
        invariant total == RecordsBefore(sizes, failed, i)
        invariant |perCollection| == |CollectionNames|
        invariant forall c :: 0 <= c < |CollectionNames| ==> perCollection[c] == CollectionBefore(sizes, failed, c, i)
      {
        if !failed[i] {
          var count := sizes[i];
          total := total + count;
          var collection := CollectionIndex(i);
          perCollection := perCollection[collection := perCollection[collection] + count];
        }
      }
      CollectionsSumToTotal(sizes, failed, |AllTables|);
      forall c | 0 <= c < |CollectionNames|
        ensures perCollection[c] == Counted(sizes, failed, 3 * c) + Counted(sizes, failed, 3 * c + 1) + Counted(sizes, failed, 3 * c + 2)
      {
        CollectionWindow(sizes, failed, c, |AllTables|);
        var lo := 3 * c;
        assert WindowSum(sizes, failed, lo, lo) == 0;
        assert WindowSum(sizes, failed, lo, lo + 3) == WindowSum(sizes, failed, lo, lo + 2) + Counted(sizes, failed, lo + 2);
        assert WindowSum(sizes, failed, lo, lo + 2) == WindowSum(sizes, failed, lo, lo + 1) + Counted(sizes, failed, lo + 1);
      }
      RecordsAtMostSizes(sizes, failed, |AllTables|);
    }
  }

  /** Batch sizes of one full run: the children of students, lecturers and
      courses always have a non-empty parent list (the fresh parents, or the
      fallback set), so each child loop runs its full count; activity has one
      row per lecturer read. */
  lemma BatchSizes(today: int, sp: seq<StudentPerformance>, lp: seq<LecturerProfile>, cp: seq<CoursePerformance>, d: AllDraws)
    requires ValidRun(sp, lp, cp, d)
    ensures |M.PerformanceRows(500, d.mahasiswa.performance)| == 500
    ensures |M.AttendanceRows(M.StudentParents(d.mahasiswa.attendanceRead, d.mahasiswa.attendanceFallback), 800, d.mahasiswa.attendance)| == 800
    ensures |M.FinanceRows(M.StudentParents(d.mahasiswa.financeRead, d.mahasiswa.financeFallback), 400, d.mahasiswa.finance)| == 400
    ensures |D.ProfileRows(150, d.dosen.profile)| == 150
    ensures |D.TeachingRows(D.TeachingParents(d.dosen.teachingRead, d.dosen.teachingFallback), 300, d.dosen.teaching)| == 300
    ensures |D.ActivityRows(D.ActivityParents(d.dosen.activityRead, d.dosen.activityFallback), d.dosen.activity)|
         == if d.dosen.activityRead.Success? then |lp| + 150 else 150
    ensures |A.CourseRows(200, d.akademik.courses)| == 200
    ensures |A.GradeRows(A.CourseParents(d.akademik.gradeRead, d.akademik.gradeFallback), 150, d.akademik.grades)| == 150
    ensures |A.TrendRows(d.akademik.trends)| == 192
    ensures |K.RevenueRows(d.keuangan.revenue)| == 32
    ensures |K.PaymentRows(d.keuangan.payment)| == 50
    ensures |K.KpiRows(d.keuangan.kpi)| == 10
    ensures |I.AccreditationRows(today, d.institusi.programmeAccreditation, d.institusi.facultyAccreditation)| == 22
  {
    var m, l, a := d.mahasiswa, d.dosen, d.akademik;
    M.PerformanceRowsFacts(500, m.performance);
    M.AttendanceLinkage(M.StudentParents(m.attendanceRead, m.attendanceFallback), 800, m.attendance);
    D.ProfileRowsFacts(150, l.profile);
    D.TeachingLinkage(D.TeachingParents(l.teachingRead, l.teachingFallback), 300, l.teaching);
    A.CourseRowsFacts(200, a.courses);
    A.GradeBucketsSumToTotal(A.CourseParents(a.gradeRead, a.gradeFallback), 150, a.grades);
    A.TrendCount(a.trends);
    K.RevenueCount(d.keuangan.revenue);
    K.PaymentGrid(d.keuangan.payment);
    K.KpiGrid(d.keuangan.kpi);
    I.AccreditationFacts(today, d.institusi.programmeAccreditation, d.institusi.facultyAccreditation);
  }
}
