/** The institutional collection (`InstitusiGenerator`): faculty_statistics
    rows are updated in place from COUNT and AVG queries over the student
    and lecturer tables, university_performance gets one row per academic
    year, and accreditation_status one row per programme, per faculty and
    for the institution. */
module Institusi {
  import opened Wrappers
  import opened Seqs
  import opened Catalog
  import opened Datamart

  // ---------------------------------------------------------------------
  // the aggregate queries

  /** `status_mahasiswa = 'Aktif'`, and `fakultas = f` when a faculty is given. */
  predicate ActiveStudentIn(r: StudentPerformance, f: Option<string>) {
    r.statusMahasiswa == "Aktif" && (f.Some? ==> r.fakultas == f.value)
  }

  /** The rows a `SELECT ... FROM datamart.student_performance WHERE ...`
      over active students sees, in table order. */
  function ActiveStudents(sp: seq<StudentPerformance>, f: Option<string>): (rs: seq<StudentPerformance>)
    ensures |rs| <= |sp|
    ensures forall r :: r in rs <==> r in sp && ActiveStudentIn(r, f)
  {
    if sp == [] then []
    else
      var last := sp[|sp| - 1];
      ActiveStudents(sp[..|sp| - 1], f) + (if ActiveStudentIn(last, f) then [last] else [])
  }

  /** `SELECT COUNT(*) FROM datamart.lecturer_profile WHERE [fakultas = f AND] status_aktif = true` */
  function ActiveLecturerCount(lp: seq<LecturerProfile>, f: Option<string>): (n: nat)
    ensures n <= |lp|
  {
    if lp == [] then 0
    else
      var last := lp[|lp| - 1];
      ActiveLecturerCount(lp[..|lp| - 1], f) + (if last.statusAktif && (f.Some? ==> last.fakultas == f.value) then 1 else 0)
  }

  function SumIpk(rs: seq<StudentPerformance>): real {
    if rs == [] then 0.0 else SumIpk(rs[..|rs| - 1]) + rs[|rs| - 1].ipk
  }

  /** `SELECT AVG(ipk) ...` over active students: NULL when none qualifies. */
  function AverageIpk(sp: seq<StudentPerformance>, f: Option<string>): Option<real> {
    var rs := ActiveStudents(sp, f);
    if |rs| == 0 then None else Some(SumIpk(rs) / |rs| as real)
  }

  lemma {:induction false} SumIpkBounds(rs: seq<StudentPerformance>)
    requires forall r :: r in rs ==> 2.0 <= r.ipk <= 4.0
    ensures 2.0 * |rs| as real <= SumIpk(rs) <= 4.0 * |rs| as real
  {
    if rs != [] {
      var front := rs[..|rs| - 1];
      assert forall r :: r in front ==> r in rs;
      SumIpkBounds(front);
      assert rs[|rs| - 1] in rs;
    }
  }

  /** Arithmetic step for `QuotientBounds` below. */
  lemma ProductSign(x: real, n: real)
    ensures x > 0.0 && n > 0.0 ==> x * n > 0.0
  {
  }

  lemma QuotientBounds(s: real, n: real)
    requires n > 0.0 && 2.0 * n <= s <= 4.0 * n
    ensures 2.0 <= s / n <= 4.0
  {
    var q := s / n;
    assert q * n == s;
    if q < 2.0 {
      ProductSign(2.0 - q, n);
      assert false;
    }
    if q > 4.0 {
      ProductSign(q - 4.0, n);
      assert false;
    }
  }

  /** When every IPK in the table is on the 2.0 to 4.0 scale, so is the
      average; it is NULL exactly when no student qualifies. */
  lemma AverageIpkInRange(sp: seq<StudentPerformance>, f: Option<string>)
    requires forall r :: r in sp ==> 2.0 <= r.ipk <= 4.0
    ensures AverageIpk(sp, f).None? <==> (forall r :: r in sp ==> !ActiveStudentIn(r, f))
    ensures AverageIpk(sp, f).Some? ==> 2.0 <= AverageIpk(sp, f).value <= 4.0
  {
    var rs := ActiveStudents(sp, f);
    if |rs| > 0 {
      assert rs[0] in rs;
      SumIpkBounds(rs);
      QuotientBounds(SumIpk(rs), |rs| as real);
    }
  }

  /** A faculty's active students are among the university's. */
  lemma {:induction false} FacultyCountAtMostTotal(sp: seq<StudentPerformance>, f: string)
    ensures |ActiveStudents(sp, Some(f))| <= |ActiveStudents(sp, None)|
  {
    if sp != [] {
      FacultyCountAtMostTotal(sp[..|sp| - 1], f);
    }
  }

  // ---------------------------------------------------------------------
  // faculty_statistics

  /** The values the UPDATE writes for one faculty. */
  datatype FacultyFigures = FacultyFigures(
    mahasiswa: int, dosen: int, programStudi: int, ipk: real, lulusan: int, kehadiran: real)

  /** `failed`: one of the four statements raised, and the faculty is skipped. */
  datatype FacultyStatsDraw = FacultyStatsDraw(failed: bool, fallbackIpk: real, lulusan: int, kehadiran: real)

  /** `random.randint(int(s * 0.1), int(s * 0.3))` written with exact floors. */
  predicate ValidFacultyStatsDraw(students: nat, d: FacultyStatsDraw) {
    && 3.0 <= d.fallbackIpk <= 3.6
    && students * 10 / 100 <= d.lulusan <= students * 30 / 100
    && 80.0 <= d.kehadiran <= 95.0
  }

  predicate ValidFacultyStatsDraws(sp: seq<StudentPerformance>, draws: seq<FacultyStatsDraw>) {
    |draws| == |Faculties|
    && forall k :: 0 <= k < |Faculties| ==> ValidFacultyStatsDraw(|ActiveStudents(sp, Some(Faculties[k]))|, draws[k])
  }

  function Figures(sp: seq<StudentPerformance>, lp: seq<LecturerProfile>, k: nat, d: FacultyStatsDraw): FacultyFigures
    requires k < |Faculties|
  {
    var f := Faculties[k];
    var avg := AverageIpk(sp, Some(f));
    FacultyFigures(
      |ActiveStudents(sp, Some(f))|, ActiveLecturerCount(lp, Some(f)), |Programmes(k)|,
      if avg.Some? then avg.value else d.fallbackIpk, d.lulusan, d.kehadiran)
  }

  function Updated(row: FacultyStatistics, fig: FacultyFigures): FacultyStatistics {
    row.(jumlahMahasiswaAktif := fig.mahasiswa, jumlahDosen := fig.dosen,
         jumlahProgramStudi := fig.programStudi, rataRataIpkFakultas := fig.ipk,
         jumlahLulusanTahunIni := fig.lulusan, tingkatKehadiranRata := fig.kehadiran)
  }

  /** `UPDATE datamart.faculty_statistics SET ... WHERE fakultas = f` */
  function UpdateWhere(rows: seq<FacultyStatistics>, f: string, fig: FacultyFigures): seq<FacultyStatistics> {
    seq(|rows|, i requires 0 <= i < |rows| => if rows[i].fakultas == f then Updated(rows[i], fig) else rows[i])
  }

  /** The table after the loop has handled the first `n` faculties. */
  function StatsAfter(rows: seq<FacultyStatistics>, sp: seq<StudentPerformance>, lp: seq<LecturerProfile>,
                      draws: seq<FacultyStatsDraw>, n: nat): seq<FacultyStatistics>
    requires n <= |Faculties| && |draws| == |Faculties|
  {
    if n == 0 then rows
    else
      var prev := StatsAfter(rows, sp, lp, draws, n - 1);
      if draws[n - 1].failed then prev else UpdateWhere(prev, Faculties[n - 1], Figures(sp, lp, n - 1, draws[n - 1]))
  }

  /** The position of a faculty name in `fakultas_list`, or 5 when it is not there. */
  function FacultyIndex(f: string): (k: nat)
    ensures k <= |Faculties|
    ensures k < |Faculties| ==> Faculties[k] == f
    ensures k == |Faculties| <==> f !in Faculties
  {
    if f == Faculties[0] then 0
    else if f == Faculties[1] then 1
    else if f == Faculties[2] then 2
    else if f == Faculties[3] then 3
    else if f == Faculties[4] then 4
    else 5
  }

  /** What row `i` becomes once the first `n` faculties are handled. */
  function ExpectedRow(row: FacultyStatistics, sp: seq<StudentPerformance>, lp: seq<LecturerProfile>,
                       draws: seq<FacultyStatsDraw>, n: nat): FacultyStatistics
    requires |draws| == |Faculties|
  {
    var k := FacultyIndex(row.fakultas);
    if k < |Faculties| && k < n && !draws[k].failed then Updated(row, Figures(sp, lp, k, draws[k])) else row
  }

  lemma {:induction false} StatsAfterRows(rows: seq<FacultyStatistics>, sp: seq<StudentPerformance>,
                                          lp: seq<LecturerProfile>, draws: seq<FacultyStatsDraw>, n: nat)
    requires n <= |Faculties| && |draws| == |Faculties|
    ensures |StatsAfter(rows, sp, lp, draws, n)| == |rows|
    ensures forall i :: 0 <= i < |rows| ==> StatsAfter(rows, sp, lp, draws, n)[i] == ExpectedRow(rows[i], sp, lp, draws, n)
  {
    if n > 0 {
      StatsAfterRows(rows, sp, lp, draws, n - 1);
      FacultiesDistinct();
      forall i | 0 <= i < |rows|
        ensures StatsAfter(rows, sp, lp, draws, n)[i] == ExpectedRow(rows[i], sp, lp, draws, n)
      {
        var prev := StatsAfter(rows, sp, lp, draws, n - 1);
        assert prev[i] == ExpectedRow(rows[i], sp, lp, draws, n - 1);
        assert prev[i].fakultas == rows[i].fakultas;
        if rows[i].fakultas == Faculties[n - 1] {
          assert FacultyIndex(rows[i].fakultas) == n - 1;
        }
      }
    }
  }

  /** After `generate_faculty_statistics`, a row of a faculty whose
      statements all succeeded holds that faculty's active-student count,
      active-lecturer count, programme count and either its average IPK or
      the fallback draw, plus a graduate count between 10% and 30% of its
      active students and the drawn attendance rate (80–95); rows of faculties that failed, and rows of
      faculties outside the list, are untouched. Nothing is added or
      removed, and the descriptive columns never change. */
  lemma FacultyStatisticsOutcome(rows: seq<FacultyStatistics>, sp: seq<StudentPerformance>,
                                 lp: seq<LecturerProfile>, draws: seq<FacultyStatsDraw>)
    requires ValidFacultyStatsDraws(sp, draws)
    ensures |StatsAfter(rows, sp, lp, draws, 5)| == |rows|
    ensures forall i :: 0 <= i < |rows| ==>
      var r := StatsAfter(rows, sp, lp, draws, 5)[i];
      var o := rows[i];
      && r.fakultas == o.fakultas && r.dekan == o.dekan && r.tahunBerdiri == o.tahunBerdiri
      && r.akreditasiFakultas == o.akreditasiFakultas && r.rankingNasional == o.rankingNasional
      && r.tahunAkademik == o.tahunAkademik
      && ((o.fakultas !in Faculties || draws[FacultyIndex(o.fakultas)].failed) ==> r == o)
      && ((o.fakultas in Faculties && !draws[FacultyIndex(o.fakultas)].failed) ==>
            && r.jumlahMahasiswaAktif == |ActiveStudents(sp, Some(o.fakultas))|
            && r.jumlahDosen == ActiveLecturerCount(lp, Some(o.fakultas))
            && r.jumlahProgramStudi == |ProdiDict[o.fakultas]|
            && (AverageIpk(sp, Some(o.fakultas)).Some? ==> r.rataRataIpkFakultas == AverageIpk(sp, Some(o.fakultas)).value)
            && (AverageIpk(sp, Some(o.fakultas)).None? ==>
                  r.rataRataIpkFakultas == draws[FacultyIndex(o.fakultas)].fallbackIpk)
            && r.tingkatKehadiranRata == draws[FacultyIndex(o.fakultas)].kehadiran
            && 80.0 <= r.tingkatKehadiranRata <= 95.0
            && r.jumlahMahasiswaAktif * 10 / 100 <= r.jumlahLulusanTahunIni <= r.jumlahMahasiswaAktif * 30 / 100)
  {
    StatsAfterRows(rows, sp, lp, draws, 5);
  }

  // ---------------------------------------------------------------------
  // university_performance

  const AcademicYears: seq<string> := ["2023/2024", "2024/2025"]

  /** `failed`: one of the three reads raised and all three figures are drawn instead. */
  datatype UniversityDraw = UniversityDraw(
    failed: bool, mahasiswa: int, dosen: int, ipk: real, tingkatKelulusan: real,
    tingkatDropOut: real, tingkatKepuasan: real)

  predicate ValidUniversityDraw(d: UniversityDraw) {
    && 3000 <= d.mahasiswa <= 5000 && 200 <= d.dosen <= 400 && 3.0 <= d.ipk <= 3.8
    && 85.0 <= d.tingkatKelulusan <= 95.0 && 3.0 <= d.tingkatDropOut <= 8.0
    && 75.0 <= d.tingkatKepuasan <= 90.0
  }

  predicate ValidUniversityDraws(draws: seq<UniversityDraw>) {
    |draws| == |AcademicYears| && forall k :: 0 <= k < |AcademicYears| ==> ValidUniversityDraw(draws[k])
  }

  function AtLeastOne(n: int): int {
    if n >= 1 then n else 1
  }

  function UniversityRow(sp: seq<StudentPerformance>, lp: seq<LecturerProfile>, k: nat, d: UniversityDraw): UniversityPerformance
    requires k < |AcademicYears|
  {
    var mahasiswa := if d.failed then d.mahasiswa else |ActiveStudents(sp, None)|;
    var dosen := if d.failed then d.dosen else ActiveLecturerCount(lp, None);
    var avg := AverageIpk(sp, None);
    var ipk := if d.failed || avg.None? then d.ipk else avg.value;
    UniversityPerformance(
      AcademicYears[k], mahasiswa, dosen, TotalProgrammes(), |Faculties|, ipk, d.tingkatKelulusan,
      d.tingkatDropOut, mahasiswa as real / AtLeastOne(dosen) as real, d.tingkatKepuasan, "B",
      AcademicYears[k])
  }

  /** The rows `generate_university_performance` appends. */
  function UniversityRows(sp: seq<StudentPerformance>, lp: seq<LecturerProfile>, draws: seq<UniversityDraw>): seq<UniversityPerformance>
    requires |draws| == |AcademicYears|
  {
    seq(|AcademicYears|, k requires 0 <= k < |AcademicYears| => UniversityRow(sp, lp, k, draws[k]))
  }

  method BuildUniversityRows(sp: seq<StudentPerformance>, lp: seq<LecturerProfile>, draws: seq<UniversityDraw>)
    returns (data: seq<UniversityPerformance>)
    requires |draws| == |AcademicYears|
    ensures data == UniversityRows(sp, lp, draws)
  {
    data := [];
    for k := 0 to |AcademicYears|
      invariant data == UniversityRows(sp, lp, draws)[..k]
    {
      data := data + [UniversityRow(sp, lp, k, draws[k])];
    }
  }

  /** `total_mahasiswa / max(total_dosen, 1)` times the divisor is the student count. */
  lemma RatioRestoresCount(m: int, d: int)
    ensures (m as real / AtLeastOne(d) as real) * AtLeastOne(d) as real == m as real
  {
    var den := AtLeastOne(d) as real;
    assert den > 0.0;
  }

  /** One row: labelled with its own academic year, the catalog totals of
      16 programmes and 5 faculties, a ratio that times the (at least one)
      lecturer count gives back the student count, and, when the reads
      succeeded, the counts of the tables. */
  lemma UniversityRowFacts(sp: seq<StudentPerformance>, lp: seq<LecturerProfile>, k: nat, d: UniversityDraw)
    requires k < |AcademicYears| && ValidUniversityDraw(d)
    ensures var r := UniversityRow(sp, lp, k, d);
      && r.periode == AcademicYears[k] && r.tahunAkademik == r.periode
      && r.totalProgramStudi == 16 && r.totalFakultas == 5 && r.akreditasiInstitusi == "B"
      && r.studentLecturerRatio * AtLeastOne(r.totalDosen) as real == r.totalMahasiswa as real
      && (!d.failed ==> r.totalMahasiswa == |ActiveStudents(sp, None)| && r.totalDosen == ActiveLecturerCount(lp, None))
      && (d.failed ==> 3000 <= r.totalMahasiswa <= 5000 && 200 <= r.totalDosen <= 400)
  {
    var r := UniversityRow(sp, lp, k, d);
    RatioRestoresCount(r.totalMahasiswa, r.totalDosen);
  }

  /** Two rows, one for each academic year, both computed the same way. */
  lemma UniversityRowsFacts(sp: seq<StudentPerformance>, lp: seq<LecturerProfile>, draws: seq<UniversityDraw>)
    requires ValidUniversityDraws(draws)
    ensures |UniversityRows(sp, lp, draws)| == 2
    ensures UniversityRows(sp, lp, draws)[0].periode == "2023/2024"
    ensures UniversityRows(sp, lp, draws)[1].periode == "2024/2025"
    ensures !draws[0].failed && !draws[1].failed ==>
      UniversityRows(sp, lp, draws)[0].totalMahasiswa == UniversityRows(sp, lp, draws)[1].totalMahasiswa
      && UniversityRows(sp, lp, draws)[0].studentLecturerRatio == UniversityRows(sp, lp, draws)[1].studentLecturerRatio
  {
    UniversityRowFacts(sp, lp, 0, draws[0]);
    UniversityRowFacts(sp, lp, 1, draws[1]);
  }

  // ---------------------------------------------------------------------
  // accreditation_status

  const ProgrammeGrades: seq<string> := ["A", "B", "C", "Unggul", "Baik Sekali"]
  const PreviousGrades: seq<string> := ["B", "C", "Baik"]
  const ProgrammeRenewals: seq<string> := ["On Track", "Needs Attention", "In Progress"]
  const ProgrammeTargets: seq<string> := ["A", "Unggul"]
  const FacultyGrades: seq<string> := ["A", "B", "Unggul", "Baik Sekali"]
  const FacultyRenewals: seq<string> := ["On Track", "In Progress"]
  const InstitutionName: string := "Universitas Indonesia Raya"

  /** Dates are day numbers; `age` and `validity` are the `timedelta` days
      subtracted from and added to today. */
  datatype AccreditationDraw = AccreditationDraw(
    gradeIx: nat, age: int, validity: int, previousIx: nat, renewalIx: nat, targetIx: nat, progress: real)

  predicate ValidProgrammeAccreditationDraw(d: AccreditationDraw) {
    && d.gradeIx < |ProgrammeGrades| && 365 <= d.age <= 1095 && 365 <= d.validity <= 1825
    && d.previousIx < |PreviousGrades| && d.renewalIx < |ProgrammeRenewals|
    && d.targetIx < |ProgrammeTargets| && 60.0 <= d.progress <= 95.0
  }

  predicate ValidFacultyAccreditationDraw(d: AccreditationDraw) {
    && d.gradeIx < |FacultyGrades| && 365 <= d.age <= 1095 && 365 <= d.validity <= 1825
    && d.renewalIx < |FacultyRenewals| && 70.0 <= d.progress <= 90.0
  }

  /** Draws per faculty and programme, then one per faculty. */
  predicate ValidAccreditationDraws(programmes: seq<seq<AccreditationDraw>>, faculties: seq<AccreditationDraw>) {
    && |programmes| == |Faculties| && |faculties| == |Faculties|
    && (forall f :: 0 <= f < |Faculties| ==> |programmes[f]| == |Programmes(f)|)
    && (forall f, p :: 0 <= f < |Faculties| && 0 <= p < |programmes[f]| ==> ValidProgrammeAccreditationDraw(programmes[f][p]))
    && (forall f :: 0 <= f < |Faculties| ==> ValidFacultyAccreditationDraw(faculties[f]))
  }

  function ProgrammeAccreditation(today: int, fakultas: string, prodi: string, d: AccreditationDraw): AccreditationStatus
    requires ValidProgrammeAccreditationDraw(d)
  {
    AccreditationStatus(
      prodi, "Program Studi", fakultas, ProgrammeGrades[d.gradeIx], today - d.age, today + d.validity,
      PreviousGrades[d.previousIx], ProgrammeRenewals[d.renewalIx], ProgrammeTargets[d.targetIx],
      d.progress, TahunAkademik)
  }

  function FacultyAccreditation(today: int, fakultas: string, d: AccreditationDraw): AccreditationStatus
    requires ValidFacultyAccreditationDraw(d)
  {
    AccreditationStatus(
      fakultas, "Fakultas", fakultas, FacultyGrades[d.gradeIx], today - d.age, today + d.validity,
      "B", FacultyRenewals[d.renewalIx], "A", d.progress, TahunAkademik)
  }

  /** The fixed institution row: accredited B two years ago, valid three more years. */
  function InstitutionAccreditation(today: int): AccreditationStatus {
    AccreditationStatus(
      InstitutionName, "Institusi", "All", "B", today - 730, today + 1095, "C", "In Progress", "A",
      75.5, TahunAkademik)
  }

  function FacultyProgrammeAccreditations(today: int, f: nat, ds: seq<AccreditationDraw>): seq<AccreditationStatus>
    requires f < |Faculties| && |ds| == |Programmes(f)|
    requires forall p :: 0 <= p < |ds| ==> ValidProgrammeAccreditationDraw(ds[p])
  {
    seq(|ds|, p requires 0 <= p < |ds| => ProgrammeAccreditation(today, Faculties[f], Programmes(f)[p], ds[p]))
  }

  function ProgrammeAccreditationBlocks(today: int, programmes: seq<seq<AccreditationDraw>>,
                                        faculties: seq<AccreditationDraw>): seq<seq<AccreditationStatus>>
    requires ValidAccreditationDraws(programmes, faculties)
  {
    seq(|Faculties|, f requires 0 <= f < |Faculties| => FacultyProgrammeAccreditations(today, f, programmes[f]))
  }

  function FacultyAccreditations(today: int, faculties: seq<AccreditationDraw>): seq<AccreditationStatus>
    requires |faculties| == |Faculties| && forall f :: 0 <= f < |Faculties| ==> ValidFacultyAccreditationDraw(faculties[f])
  {
    seq(|Faculties|, f requires 0 <= f < |Faculties| => FacultyAccreditation(today, Faculties[f], faculties[f]))
  }

  /** Everything `generate_accreditation_status` appends, `today` being `datetime.now()`. */
  function AccreditationRows(today: int, programmes: seq<seq<AccreditationDraw>>,
                             faculties: seq<AccreditationDraw>): seq<AccreditationStatus>
    requires ValidAccreditationDraws(programmes, faculties)
  {
    Concat(ProgrammeAccreditationBlocks(today, programmes, faculties))
      + FacultyAccreditations(today, faculties) + [InstitutionAccreditation(today)]
  }

  method BuildAccreditationRows(today: int, programmes: seq<seq<AccreditationDraw>>, faculties: seq<AccreditationDraw>)
    returns (data: seq<AccreditationStatus>)
    requires ValidAccreditationDraws(programmes, faculties)
    ensures data == AccreditationRows(today, programmes, faculties)
  {
    hide ProgrammeAccreditation, FacultyAccreditation, InstitutionAccreditation;
    var blocks := ProgrammeAccreditationBlocks(today, programmes, faculties);
    data := [];
    for f := 0 to |Faculties|
      invariant data == Concat(blocks[..f])
    {
      ConcatStep(blocks, f);
      var ds := programmes[f];
      for p := 0 to |ds|
        invariant data == Concat(blocks[..f]) + blocks[f][..p]
      {
        data := data + [ProgrammeAccreditation(today, Faculties[f], Programmes(f)[p], ds[p])];
      }
      assert blocks[f][..|ds|] == blocks[f];
    }
    assert blocks[..|Faculties|] == blocks;
    for f := 0 to |Faculties|
      invariant data == Concat(blocks) + FacultyAccreditations(today, faculties)[..f]
    {
      data := data + [FacultyAccreditation(today, Faculties[f], faculties[f])];
    }
    data := data + [InstitutionAccreditation(today)];
  }

  lemma {:induction false} ProgrammeBlocksLength(today: int, programmes: seq<seq<AccreditationDraw>>,
                                                 faculties: seq<AccreditationDraw>, n: nat)
    requires ValidAccreditationDraws(programmes, faculties) && n <= |Faculties|
    ensures TotalLength(ProgrammeAccreditationBlocks(today, programmes, faculties)[..n]) == ProgrammesBefore(n)
  {
    if n > 0 {
      var blocks := ProgrammeAccreditationBlocks(today, programmes, faculties);
      assert blocks[..n][..n - 1] == blocks[..n - 1];
      ProgrammeBlocksLength(today, programmes, faculties, n - 1);
    }
  }

  predicate DatedAround(r: AccreditationStatus, today: int) {
    today - 1095 <= r.tanggalAkreditasi <= today - 365 < today < today + 365 <= r.masaBerlaku <= today + 1825
  }

  /** 22 rows: one per programme (16), one per faculty (5) and the
      institution last. Every accreditation date lies one to three years
      back and every expiry one to five years ahead, so no unit is listed
      as expired; programme rows name a programme of their faculty. */
  lemma AccreditationFacts(today: int, programmes: seq<seq<AccreditationDraw>>, faculties: seq<AccreditationDraw>)
    requires ValidAccreditationDraws(programmes, faculties)
    ensures |AccreditationRows(today, programmes, faculties)| == 22
    ensures AccreditationRows(today, programmes, faculties)[21] == InstitutionAccreditation(today)
    ensures forall i :: 0 <= i < 5 ==>
      AccreditationRows(today, programmes, faculties)[16 + i].unitName == Faculties[i]
      && AccreditationRows(today, programmes, faculties)[16 + i].unitType == "Fakultas"
    ensures forall r :: r in AccreditationRows(today, programmes, faculties) ==>
      DatedAround(r, today) && r.targetAkreditasi in {"A", "Unggul"}
    ensures forall i :: 0 <= i < 16 ==>
      var r := AccreditationRows(today, programmes, faculties)[i];
      r.unitType == "Program Studi" && r.fakultas in ProdiDict && r.unitName in ProdiDict[r.fakultas]
  {
    var blocks := ProgrammeAccreditationBlocks(today, programmes, faculties);
    ConcatLength(blocks);
    ProgrammeBlocksLength(today, programmes, faculties, |Faculties|);
    assert blocks[..|Faculties|] == blocks;
    assert TotalProgrammes() == 16;
    var rows := AccreditationRows(today, programmes, faculties);
    var front := Concat(blocks);
    assert |front| == 16;
    forall r | r in front
      ensures DatedAround(r, today) && r.targetAkreditasi in {"A", "Unggul"}
      ensures r.unitType == "Program Studi" && r.fakultas in ProdiDict && r.unitName in ProdiDict[r.fakultas]
    {
      InConcat(blocks, r);
    }
    forall i | 0 <= i < 16
      ensures rows[i].unitType == "Program Studi" && rows[i].fakultas in ProdiDict && rows[i].unitName in ProdiDict[rows[i].fakultas]
    {
      assert rows[i] == front[i];
      assert front[i] in front;
    }
    forall r | r in rows
      ensures DatedAround(r, today) && r.targetAkreditasi in {"A", "Unggul"}
    {
      var i :| 0 <= i < |rows| && rows[i] == r;
      if i < 16 {
        assert front[i] in front;
      }
    }
  }

  // ---------------------------------------------------------------------
  // the generator

  datatype InstitusiDraws = InstitusiDraws(
    facultyStats: seq<FacultyStatsDraw>, university: seq<UniversityDraw>,
    programmeAccreditation: seq<seq<AccreditationDraw>>, facultyAccreditation: seq<AccreditationDraw>)

  /** What `generate_all` needs: draws in range, the graduate counts
      bounded by the active students of `sp`, the student table as it stands. */
  predicate AllReady(sp: seq<StudentPerformance>, d: InstitusiDraws) {
    && ValidFacultyStatsDraws(sp, d.facultyStats)
    && ValidUniversityDraws(d.university)
    && ValidAccreditationDraws(d.programmeAccreditation, d.facultyAccreditation)
  }

  /** The institutional tables of the datamart. */
  datatype InstitutionalTables = InstitutionalTables(facultyStats: seq<FacultyStatistics>, university: seq<UniversityPerformance>, accreditation: seq<AccreditationStatus>)

  /** The three institutional tables after `generate_all`, given what they
      held before and the student and lecturer tables they are computed
      from: faculty statistics updated in place, the other two appended to. */
  function Generated(before: InstitutionalTables, sp: seq<StudentPerformance>, lp: seq<LecturerProfile>, today: int, d: InstitusiDraws): InstitutionalTables
    requires AllReady(sp, d)
  {
    InstitutionalTables(
      StatsAfter(before.facultyStats, sp, lp, d.facultyStats, 5),
      before.university + UniversityRows(sp, lp, d.university),
      before.accreditation + AccreditationRows(today, d.programmeAccreditation, d.facultyAccreditation))
  }

  class InstitusiGenerator {
    const db: Datamart

    constructor (db: Datamart)
      ensures this.db == db
    {
      this.db := db;
    }

    /** The loop over `fakultas_list`: each faculty's rows are updated, or
        left as they were when one of its statements raised. */
    method GenerateFacultyStatistics(draws: seq<FacultyStatsDraw>)
      requires ValidFacultyStatsDraws(db.studentPerformance, draws)
      modifies db`facultyStatistics
      ensures db.facultyStatistics == StatsAfter(old(db.facultyStatistics), db.studentPerformance, db.lecturerProfile, draws, 5)
    {
      for k := 0 to |Faculties|
        invariant db.facultyStatistics == StatsAfter(old(db.facultyStatistics), db.studentPerformance, db.lecturerProfile, draws, k)
      {
        if !draws[k].failed {
          var figures := Figures(db.studentPerformance, db.lecturerProfile, k, draws[k]);
          db.facultyStatistics := UpdateWhere(db.facultyStatistics, Faculties[k], figures);
        }
      }
    }

    method GenerateUniversityPerformance(draws: seq<UniversityDraw>)
      requires ValidUniversityDraws(draws)
      modifies db`universityPerformance
      ensures db.universityPerformance == old(db.universityPerformance)
        + UniversityRows(db.studentPerformance, db.lecturerProfile, draws)
    {
      var data := BuildUniversityRows(db.studentPerformance, db.lecturerProfile, draws);
      db.universityPerformance := db.universityPerformance + data;
    }

    method GenerateAccreditationStatus(today: int, programmes: seq<seq<AccreditationDraw>>, faculties: seq<AccreditationDraw>)
      requires ValidAccreditationDraws(programmes, faculties)
      modifies db`accreditationStatus
      ensures db.accreditationStatus == old(db.accreditationStatus) + AccreditationRows(today, programmes, faculties)
    {
      var data := BuildAccreditationRows(today, programmes, faculties);
      db.accreditationStatus := db.accreditationStatus + data;
    }

    method GenerateAll(today: int, ghost sp: seq<StudentPerformance>, d: InstitusiDraws)
      requires db.studentPerformance == sp && AllReady(sp, d)
      modifies db`facultyStatistics, db`universityPerformance, db`accreditationStatus
      ensures InstitutionalTables(db.facultyStatistics, db.universityPerformance, db.accreditationStatus)
        == Generated(InstitutionalTables(old(db.facultyStatistics), old(db.universityPerformance), old(db.accreditationStatus)), db.studentPerformance, db.lecturerProfile, today, d)
    {
      GenerateFacultyStatistics(d.facultyStats);
      GenerateUniversityPerformance(d.university);
      GenerateAccreditationStatus(today, d.programmeAccreditation, d.facultyAccreditation);
    }
  }
}
