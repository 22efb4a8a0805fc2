/** The lecturer collection (`DosenGenerator`): lecturer_profile, then
    lecturer_teaching over a sample of at most 50 lecturers and
    lecturer_activity with one row per lecturer in the table. */
module Dosen {
  import opened Wrappers
  import opened Digits
  import opened Catalog
  import opened Datamart

  const Genders: seq<string> := ["Laki-laki", "Perempuan"]
  const Degrees: seq<string> := ["S2", "S3"]
  const Ranks: seq<string> := ["Asisten Ahli", "Lektor", "Lektor Kepala", "Guru Besar"]
  const CivilGrades: seq<string> := ["III/a", "III/b", "III/c", "III/d", "IV/a", "IV/b"]
  const Classes: seq<string> := ["A", "B", "C"]
  const Semesters: seq<string> := ["Ganjil", "Genap"]

  // ---------------------------------------------------------------------
  // lecturer_profile

  datatype ProfileDraw = ProfileDraw(
    facultyIx: nat, prodiIx: nat, year: nat, month: nat, day: nat, nama: string,
    genderIx: nat, degreeIx: nat, rankIx: nat, gradeIx: nat, totalMataKuliah: int,
    totalMahasiswaBimbingan: int, bebanSks: int)

  predicate ValidProfileDraw(d: ProfileDraw) {
    && d.facultyIx < |Faculties| && d.prodiIx < |Programmes(d.facultyIx)|
    && 1970 <= d.year <= 1999 && 10 <= d.month <= 12 && 10 <= d.day <= 28
    && d.genderIx < |Genders| && d.degreeIx < |Degrees| && d.rankIx < |Ranks|
    && d.gradeIx < |CivilGrades| && 2 <= d.totalMataKuliah <= 6
    && 5 <= d.totalMahasiswaBimbingan <= 20 && 12 <= d.bebanSks <= 24
  }

  predicate ValidProfileDraws(count: nat, draws: seq<ProfileDraw>) {
    |draws| == count && forall i :: 0 <= i < count ==> ValidProfileDraw(draws[i])
  }

  /** `f"NIP{year}{month}{day}{i + 1:03d}"` with two-digit month and day. */
  function Nip(year: nat, month: nat, day: nat, i: nat): string {
    "NIP" + Decimal(year) + Decimal(month) + Decimal(day) + ZeroPad(i + 1, 3)
  }

  function ProfileRow(i: nat, d: ProfileDraw): LecturerProfile
    requires ValidProfileDraw(d)
  {
    LecturerProfile(
      Nip(d.year, d.month, d.day, i), d.nama, Genders[d.genderIx], Faculties[d.facultyIx],
      Programmes(d.facultyIx)[d.prodiIx], Degrees[d.degreeIx], Ranks[d.rankIx],
      CivilGrades[d.gradeIx], d.totalMataKuliah, d.totalMahasiswaBimbingan, d.bebanSks,
      true, TahunAkademik)
  }

  /** The batch `generate_lecturer_profile(count)` appends. */
  function ProfileRows(count: nat, draws: seq<ProfileDraw>): seq<LecturerProfile>
    requires ValidProfileDraws(count, draws)
  {
    seq(count, i requires 0 <= i < count => ProfileRow(i, draws[i]))
  }

  method BuildProfileRows(count: nat, draws: seq<ProfileDraw>) returns (data: seq<LecturerProfile>)
    requires ValidProfileDraws(count, draws)
    ensures data == ProfileRows(count, draws)
  {
    data := [];
    for i := 0 to count
      invariant data == ProfileRows(count, draws)[..i]
    {
      data := data + [ProfileRow(i, draws[i])];
    }
  }

  /** Every generated lecturer is active, teaches 12 to 24 credits and
      belongs to a programme of their own faculty. */
  lemma ProfileRowsFacts(count: nat, draws: seq<ProfileDraw>)
    requires ValidProfileDraws(count, draws)
    ensures |ProfileRows(count, draws)| == count
    ensures forall r :: r in ProfileRows(count, draws) ==>
      && r.statusAktif && 12 <= r.bebanSks <= 24
      && r.fakultas in ProdiDict && r.programStudi in ProdiDict[r.fakultas]
      && r.pendidikanTerakhir in {"S2", "S3"}
  {
  }

  /** The NIP is "NIP", the year, month and day (8 characters), then the
      padded running number. */
  lemma NipSuffix(year: nat, month: nat, day: nat, i: nat)
    requires 1970 <= year <= 1999 && 10 <= month <= 12 && 10 <= day <= 28
    ensures |Nip(year, month, day, i)| == 11 + |ZeroPad(i + 1, 3)|
    ensures Nip(year, month, day, i)[11..] == ZeroPad(i + 1, 3)
  {
    assert Pow10(3) == 1000 && Pow10(4) == 10000;
    DecimalWidth(year, 4);
    DecimalWidth(month, 2);
    DecimalWidth(day, 2);
  }

  /** With at most 999 lecturers a NIP has 14 characters. */
  lemma NipShape(count: nat, draws: seq<ProfileDraw>)
    requires ValidProfileDraws(count, draws) && count <= 999
    ensures forall i :: 0 <= i < count ==>
      |ProfileRows(count, draws)[i].nip| == 14 && ProfileRows(count, draws)[i].nip[11..] == ZeroPad(i + 1, 3)
  {
    forall i | 0 <= i < count
      ensures |ProfileRows(count, draws)[i].nip| == 14 && ProfileRows(count, draws)[i].nip[11..] == ZeroPad(i + 1, 3)
    {
      NipSuffix(draws[i].year, draws[i].month, draws[i].day, i);
      ZeroPadWidth(i + 1, 3);
    }
  }

  /** The NIPs of one batch are pairwise different. */
  lemma NipsDistinct(count: nat, draws: seq<ProfileDraw>)
    requires ValidProfileDraws(count, draws)
    ensures forall i, j :: 0 <= i < j < count ==> ProfileRows(count, draws)[i].nip != ProfileRows(count, draws)[j].nip
  {
    forall i, j | 0 <= i < j < count
      ensures ProfileRows(count, draws)[i].nip != ProfileRows(count, draws)[j].nip
    {
      NipSuffix(draws[i].year, draws[i].month, draws[i].day, i);
      NipSuffix(draws[j].year, draws[j].month, draws[j].day, j);
      if ProfileRows(count, draws)[i].nip == ProfileRows(count, draws)[j].nip {
        ZeroPadInjective(i + 1, j + 1, 3);
      }
    }
  }

  // ---------------------------------------------------------------------
  // the fabricated lecturers used when a parent read raises

  /** `f"NIP{1970 + i // 10}{(i % 12) + 1:02d}{(i % 28) + 1:02d}{i + 1:03d}"` */
  function FallbackNip(i: nat): string {
    "NIP" + Decimal(1970 + i / 10) + ZeroPad(i % 12 + 1, 2) + ZeroPad(i % 28 + 1, 2) + ZeroPad(i + 1, 3)
  }

  lemma FallbackNipSuffix(i: nat)
    requires i < 300
    ensures |FallbackNip(i)| == 14 && FallbackNip(i)[11..] == ZeroPad(i + 1, 3)
  {
    assert Pow10(2) == 100 && Pow10(3) == 1000 && Pow10(4) == 10000;
    DecimalWidth(1970 + i / 10, 4);
    ZeroPadWidth(i % 12 + 1, 2);
    ZeroPadWidth(i % 28 + 1, 2);
    ZeroPadWidth(i + 1, 3);
  }

  /** The fabricated NIPs are pairwise different (for both fallback sizes, 50 and 150). */
  lemma FallbackNipsDistinct(n: nat)
    requires n <= 300
    ensures forall i, j :: 0 <= i < j < n ==> FallbackNip(i) != FallbackNip(j)
  {
    forall i, j | 0 <= i < j < n
      ensures FallbackNip(i) != FallbackNip(j)
    {
      FallbackNipSuffix(i);
      FallbackNipSuffix(j);
      if FallbackNip(i) == FallbackNip(j) {
        ZeroPadInjective(i + 1, j + 1, 3);
      }
    }
  }

  datatype FallbackLecturerDraw = FallbackLecturerDraw(nama: string, facultyIx: nat, prodiFacultyIx: nat, prodiIx: nat)

  predicate ValidFallbackLecturerDraw(d: FallbackLecturerDraw) {
    d.facultyIx < |Faculties| && d.prodiFacultyIx < |Faculties| && d.prodiIx < |Programmes(d.prodiFacultyIx)|
  }

  predicate ValidFallbackLecturers(n: nat, draws: seq<FallbackLecturerDraw>) {
    |draws| == n && forall i :: 0 <= i < n ==> ValidFallbackLecturerDraw(draws[i])
  }

  /** The 50 lecturers (with programme) used by `generate_lecturer_teaching`. */
  function FallbackLecturers(draws: seq<FallbackLecturerDraw>): (ls: seq<LecturerRef>)
    requires ValidFallbackLecturers(50, draws)
    ensures |ls| == 50
  {
    seq(50, i requires 0 <= i < 50 =>
      LecturerRef(FallbackNip(i), draws[i].nama, Faculties[draws[i].facultyIx],
                  Programmes(draws[i].prodiFacultyIx)[draws[i].prodiIx]))
  }

  /** The 150 lecturers (without programme) used by `generate_lecturer_activity`. */
  function FallbackLecturerIds(draws: seq<FallbackLecturerDraw>): (ls: seq<LecturerId>)
    requires ValidFallbackLecturers(150, draws)
    ensures |ls| == 150
  {
    seq(150, i requires 0 <= i < 150 => LecturerId(FallbackNip(i), draws[i].nama, Faculties[draws[i].facultyIx]))
  }

  // ---------------------------------------------------------------------
  // lecturer_teaching

  datatype TeachingDraw = TeachingDraw(
    courseIx: nat, kode: nat, classIx: nat, jumlahMahasiswa: int, rataRataNilai: real,
    rataRataKehadiran: real, tingkatKelulusan: real, semesterIx: nat)

  predicate ValidTeachingDraw(d: TeachingDraw) {
    && d.courseIx < 4 && 1001 <= d.kode <= 9999 && d.classIx < |Classes|
    && 15 <= d.jumlahMahasiswa <= 45 && 65.0 <= d.rataRataNilai <= 85.0
    && 75.0 <= d.rataRataKehadiran <= 95.0 && 80.0 <= d.tingkatKelulusan <= 100.0
    && d.semesterIx < |Semesters|
  }

  predicate ValidTeachingDraws(count: nat, draws: seq<TeachingDraw>) {
    |draws| == count && forall i :: 0 <= i < count ==> ValidTeachingDraw(draws[i])
  }

  function TeachingRow(l: LecturerRef, d: TeachingDraw): LecturerTeaching
    requires ValidTeachingDraw(d)
  {
    ShortCourseList(l.programStudi);
    LecturerTeaching(
      l.nip, l.namaDosen, l.fakultas, CourseList(ShortCourseLists, l.programStudi)[d.courseIx],
      "MK" + Decimal(d.kode), Classes[d.classIx], d.jumlahMahasiswa, d.rataRataNilai,
      d.rataRataKehadiran, d.tingkatKelulusan, Semesters[d.semesterIx], TahunAkademik)
  }

  /** `lecturers_df`: the sample read back, or the fabricated 50. */
  function TeachingParents(read: Result<seq<LecturerRef>>, fallback: seq<FallbackLecturerDraw>): (ls: seq<LecturerRef>)
    requires ValidFallbackLecturers(50, fallback)
    ensures read.Failure? ==> |ls| == 50
  {
    if read.Success? then read.value else FallbackLecturers(fallback)
  }

  /** The batch `generate_lecturer_teaching(count)` appends: row `i` is
      taught by lecturer `i mod n`. */
  function TeachingRows(parents: seq<LecturerRef>, count: nat, draws: seq<TeachingDraw>): seq<LecturerTeaching>
    requires ValidTeachingDraws(count, draws)
  {
    if |parents| == 0 then []
    else seq(count, i requires 0 <= i < count => TeachingRow(parents[i % |parents|], draws[i]))
  }

  method BuildTeachingRows(parents: seq<LecturerRef>, count: nat, draws: seq<TeachingDraw>)
    returns (data: seq<LecturerTeaching>)
    requires ValidTeachingDraws(count, draws)
    ensures data == TeachingRows(parents, count, draws)
  {
    hide TeachingRow;
    data := [];
    for i := 0 to count
      invariant |parents| > 0 ==> data == TeachingRows(parents, count, draws)[..i]
      invariant |parents| == 0 ==> data == []
    {
      if |parents| > 0 {
        data := data + [TeachingRow(parents[i % |parents|], draws[i])];
      }
    }
  }

  /** Row `i` is taught by parent `i mod n`, and its course comes from the
      list of that lecturer's programme (or the default list). */
  lemma TeachingLinkage(parents: seq<LecturerRef>, count: nat, draws: seq<TeachingDraw>)
    requires ValidTeachingDraws(count, draws)
    ensures |TeachingRows(parents, count, draws)| == if |parents| > 0 then count else 0
    ensures forall i :: 0 <= i < |TeachingRows(parents, count, draws)| ==>
      var r := TeachingRows(parents, count, draws)[i];
      var l := parents[i % |parents|];
      && r.nip == l.nip && r.namaDosen == l.namaDosen && r.fakultas == l.fakultas
      && r.mataKuliah in CourseList(ShortCourseLists, l.programStudi)
      && 15 <= r.jumlahMahasiswa <= 45
  {
    hide TeachingRow;
    forall i | 0 <= i < |TeachingRows(parents, count, draws)|
      ensures var r := TeachingRows(parents, count, draws)[i];
        var l := parents[i % |parents|];
        && r.nip == l.nip && r.namaDosen == l.namaDosen && r.fakultas == l.fakultas
        && r.mataKuliah in CourseList(ShortCourseLists, l.programStudi)
        && 15 <= r.jumlahMahasiswa <= 45
    {
      TeachingRowFacts(parents[i % |parents|], draws[i]);
    }
  }

  /** One teaching row: the lecturer's identity, a course from the lecturer's
      programme list, and 15..45 students. */
  lemma TeachingRowFacts(l: LecturerRef, d: TeachingDraw)
    requires ValidTeachingDraw(d)
    ensures var r := TeachingRow(l, d);
      && r.nip == l.nip && r.namaDosen == l.namaDosen && r.fakultas == l.fakultas
      && r.mataKuliah in CourseList(ShortCourseLists, l.programStudi)
      && 15 <= r.jumlahMahasiswa <= 45
  {
  }

  /** When the LIMIT-50 read succeeded, teaching rows cycle through at most
      50 lecturers of the profile table. */
  lemma TeachingReferencesLecturers(table: seq<LecturerProfile>, read: Result<seq<LecturerRef>>,
                                    fallback: seq<FallbackLecturerDraw>, count: nat, draws: seq<TeachingDraw>)
    requires ValidFallbackLecturers(50, fallback) && ValidTeachingDraws(count, draws)
    requires read.Success? && ReadOf(read, LecturerRefs(table), Some(50))
    ensures |TeachingParents(read, fallback)| <= 50
    ensures forall i :: 0 <= i < |TeachingRows(TeachingParents(read, fallback), count, draws)| ==>
      TeachingParents(read, fallback)[i % |TeachingParents(read, fallback)|] in LecturerRefs(table)
  {
    SampleRowsFromTable(read.value, LecturerRefs(table), Some(50));
  }

  // ---------------------------------------------------------------------
  // lecturer_activity

  datatype ActivityDraw = ActivityDraw(
    jumlahPenelitian: int, jumlahPublikasi: int, jumlahPengabdian: int,
    totalDanaPenelitian: int, pelatihanDiikuti: int, sertifikasiDimiliki: int)

  predicate ValidActivityDraw(d: ActivityDraw) {
    && 0 <= d.jumlahPenelitian <= 5 && 0 <= d.jumlahPublikasi <= 8 && 1 <= d.jumlahPengabdian <= 4
    && 0 <= d.totalDanaPenelitian <= 500000000 && 1 <= d.pelatihanDiikuti <= 6
    && 0 <= d.sertifikasiDimiliki <= 3
  }

  predicate ValidActivityDraws(n: nat, draws: seq<ActivityDraw>) {
    |draws| == n && forall i :: 0 <= i < n ==> ValidActivityDraw(draws[i])
  }

  function ActivityRow(l: LecturerId, d: ActivityDraw): LecturerActivity {
    LecturerActivity(
      l.nip, l.namaDosen, l.fakultas, d.jumlahPenelitian, d.jumlahPublikasi, d.jumlahPengabdian,
      d.totalDanaPenelitian, d.pelatihanDiikuti, d.sertifikasiDimiliki, TahunAkademik)
  }

  /** `lecturers_df` of the activity generator: the whole profile table, or
      the fabricated 150. */
  function ActivityParents(read: Result<seq<LecturerId>>, fallback: seq<FallbackLecturerDraw>): (ls: seq<LecturerId>)
    requires ValidFallbackLecturers(150, fallback)
    ensures read.Failure? ==> |ls| == 150
  {
    if read.Success? then read.value else FallbackLecturerIds(fallback)
  }

  /** One row per lecturer of `lecturers_df`, in its order; the `count`
      argument plays no part. */
  function ActivityRows(parents: seq<LecturerId>, draws: seq<ActivityDraw>): seq<LecturerActivity>
    requires |draws| == |parents|
  {
    seq(|parents|, i requires 0 <= i < |parents| => ActivityRow(parents[i], draws[i]))
  }

  /** The `iterrows()` loop. */
  method BuildActivityRows(parents: seq<LecturerId>, draws: seq<ActivityDraw>) returns (data: seq<LecturerActivity>)
    requires |draws| == |parents|
    ensures data == ActivityRows(parents, draws)
  {
    data := [];
    for i := 0 to |parents|
      invariant data == ActivityRows(parents, draws)[..i]
    {
      data := data + [ActivityRow(parents[i], draws[i])];
    }
  }

  /** When the full read succeeded, the activity batch holds exactly one row
      for every lecturer of the profile table (as a multiset of identities),
      whatever `count` was; each lecturer has at least one community
      service activity. */
  lemma ActivityCoversEveryLecturer(table: seq<LecturerProfile>, read: Result<seq<LecturerId>>,
                                    fallback: seq<FallbackLecturerDraw>, draws: seq<ActivityDraw>)
    requires ValidFallbackLecturers(150, fallback)
    requires read.Success? && ReadOf(read, LecturerIds(table), None)
    requires ValidActivityDraws(|ActivityParents(read, fallback)|, draws)
    ensures |ActivityRows(ActivityParents(read, fallback), draws)| == |table|
    ensures multiset(seq(|table|, i requires 0 <= i < |table| =>
              var r := ActivityRows(ActivityParents(read, fallback), draws)[i];
              LecturerId(r.nip, r.namaDosen, r.fakultas)))
            == multiset(LecturerIds(table))
    ensures forall r :: r in ActivityRows(ActivityParents(read, fallback), draws) ==> 1 <= r.jumlahPengabdian <= 4
  {
    var ps := ActivityParents(read, fallback);
    FullReadIsPermutation(ps, LecturerIds(table));
    var ids := seq(|table|, i requires 0 <= i < |table| =>
      var r := ActivityRows(ps, draws)[i];
      LecturerId(r.nip, r.namaDosen, r.fakultas));
    assert ids == ps;
  }

  // ---------------------------------------------------------------------
  // the generator

  datatype DosenDraws = DosenDraws(
    profile: seq<ProfileDraw>,
    teachingRead: Result<seq<LecturerRef>>, teachingFallback: seq<FallbackLecturerDraw>,
    teaching: seq<TeachingDraw>,
    activityRead: Result<seq<LecturerId>>, activityFallback: seq<FallbackLecturerDraw>,
    activity: seq<ActivityDraw>)

  /** What `generate_all` needs: draws in range, and both reads taken from
      the profile table once its 150 new lecturers are in (`lp` is the
      table before the call). */
  predicate AllReady(lp: seq<LecturerProfile>, d: DosenDraws) {
    && ValidProfileDraws(150, d.profile)
    && ReadOf(d.teachingRead, LecturerRefs(lp + ProfileRows(150, d.profile)), Some(50))
    && ValidFallbackLecturers(50, d.teachingFallback) && ValidTeachingDraws(300, d.teaching)
    && ReadOf(d.activityRead, LecturerIds(lp + ProfileRows(150, d.profile)), None)
    && ValidFallbackLecturers(150, d.activityFallback)
    && ValidActivityDraws(if d.activityRead.Success? then |d.activityRead.value| else 150, d.activity)
  }

  /** The lecturer tables of the datamart. */
  datatype LecturerTables = LecturerTables(profile: seq<LecturerProfile>, teaching: seq<LecturerTeaching>, activity: seq<LecturerActivity>)

  /** The three lecturer tables after `generate_all`, given what they held
      before: each has its batch appended. */
  function Generated(before: LecturerTables, d: DosenDraws): LecturerTables
    requires AllReady(before.profile, d)
  {
    LecturerTables(
      before.profile + ProfileRows(150, d.profile),
      before.teaching + TeachingRows(TeachingParents(d.teachingRead, d.teachingFallback), 300, d.teaching),
      before.activity + ActivityRows(ActivityParents(d.activityRead, d.activityFallback), d.activity))
  }

  class DosenGenerator {
    const db: Datamart

    constructor (db: Datamart)
      ensures this.db == db
    {
      this.db := db;
    }

    method GenerateLecturerProfile(count: nat, draws: seq<ProfileDraw>)
      requires ValidProfileDraws(count, draws)
      modifies db`lecturerProfile
      ensures db.lecturerProfile == old(db.lecturerProfile) + ProfileRows(count, draws)
    {
      var data := BuildProfileRows(count, draws);
      db.lecturerProfile := db.lecturerProfile + data;
    }

    method GenerateLecturerTeaching(count: nat, read: Result<seq<LecturerRef>>,
                                    fallback: seq<FallbackLecturerDraw>, draws: seq<TeachingDraw>)
      requires ReadOf(read, LecturerRefs(db.lecturerProfile), Some(50))
      requires ValidFallbackLecturers(50, fallback) && ValidTeachingDraws(count, draws)
      modifies db`lecturerTeaching
      ensures db.lecturerTeaching == old(db.lecturerTeaching) + TeachingRows(TeachingParents(read, fallback), count, draws)
    {
      var lecturers := TeachingParents(read, fallback);
      var data := BuildTeachingRows(lecturers, count, draws);
      db.lecturerTeaching := db.lecturerTeaching + data;
    }

    /** `count` is accepted and ignored, as in the source. */
    method GenerateLecturerActivity(count: nat, read: Result<seq<LecturerId>>,
                                    fallback: seq<FallbackLecturerDraw>, draws: seq<ActivityDraw>)
      requires ReadOf(read, LecturerIds(db.lecturerProfile), None)
      requires ValidFallbackLecturers(150, fallback)
      requires ValidActivityDraws(|ActivityParents(read, fallback)|, draws)
      modifies db`lecturerActivity
      ensures db.lecturerActivity == old(db.lecturerActivity) + ActivityRows(ActivityParents(read, fallback), draws)
    {
      var lecturers := ActivityParents(read, fallback);
      var data := BuildActivityRows(lecturers, draws);
      db.lecturerActivity := db.lecturerActivity + data;
    }

    /** 150 profiles, then 300 teaching rows and the activity rows, both
        reading a profile table that already holds the new lecturers. */
    method GenerateAll(ghost lp: seq<LecturerProfile>, d: DosenDraws)
      requires db.lecturerProfile == lp && AllReady(lp, d)
      modifies db`lecturerProfile, db`lecturerTeaching, db`lecturerActivity
      ensures LecturerTables(db.lecturerProfile, db.lecturerTeaching, db.lecturerActivity)
        == Generated(LecturerTables(old(db.lecturerProfile), old(db.lecturerTeaching), old(db.lecturerActivity)), d)
    {
      GenerateLecturerProfile(150, d.profile);
      GenerateLecturerTeaching(300, d.teachingRead, d.teachingFallback, d.teaching);
      GenerateLecturerActivity(150, d.activityRead, d.activityFallback, d.activity);
    }
  }
}
