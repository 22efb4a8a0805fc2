/** The student collection (`MahasiswaGenerator`): student_performance,
    then student_attendance and student_finance, whose rows copy their
    student's identifying columns from a sample of student_performance or,
    when that read raises, from 200 fabricated students. */
module Mahasiswa {
  import opened Wrappers
  import opened Digits
  import opened Catalog
  import opened Datamart

  const Genders: seq<string> := ["Laki-laki", "Perempuan"]
  /** `random.choice(['Aktif', 'Aktif', 'Aktif', 'Cuti', 'Lulus'])`: weighted towards 'Aktif'. */
  const StudentStatuses: seq<string> := ["Aktif", "Aktif", "Aktif", "Cuti", "Lulus"]
  const TuitionFees: seq<int> := [3500000, 4000000, 4500000, 5000000]
  const PaymentStatuses: seq<string> := ["Lunas", "Lunas", "Belum Lunas", "Menunggak"]
  const Semesters: seq<string> := ["Ganjil", "Genap"]
  const PaymentMethods: seq<string> := ["Transfer Bank", "Virtual Account", "Kartu Kredit", "E-wallet"]
  /** Every attendance row covers 14 meetings. */
  const TotalPertemuan: int := 14

  // ---------------------------------------------------------------------
  // student_performance

  /** The random and Faker draws of one loop iteration; `...Ix` fields are
      the positions `random.choice` picked. */
  datatype PerformanceDraw = PerformanceDraw(
    facultyIx: nat, prodiIx: nat, angkatan: nat, nimDigits: nat, nama: string,
    genderIx: nat, semesterAktif: int, ipk: real, totalSks: int, sksLulus: int,
    statusIx: nat)

  predicate ValidPerformanceDraw(d: PerformanceDraw) {
    && d.facultyIx < |Faculties| && d.prodiIx < |Programmes(d.facultyIx)|
    && 2020 <= d.angkatan <= 2024 && 10 <= d.nimDigits <= 99
    && d.genderIx < |Genders| && 1 <= d.semesterAktif <= 8 && 2.0 <= d.ipk <= 4.0
    && 120 <= d.totalSks <= 160 && 80 <= d.sksLulus <= 150 && d.statusIx < |StudentStatuses|
  }

  predicate ValidPerformanceDraws(count: nat, draws: seq<PerformanceDraw>) {
    |draws| == count && forall i :: 0 <= i < count ==> ValidPerformanceDraw(draws[i])
  }

  /** `f"{angkatan}{random.randint(10, 99)}{i + 1:04d}"` */
  function Nim(angkatan: nat, digits: nat, i: nat): string {
    Decimal(angkatan) + Decimal(digits) + ZeroPad(i + 1, 4)
  }

  function PerformanceRow(i: nat, d: PerformanceDraw): StudentPerformance
    requires ValidPerformanceDraw(d)
  {
    StudentPerformance(
      Nim(d.angkatan, d.nimDigits, i), d.nama, Genders[d.genderIx], Faculties[d.facultyIx],
      Programmes(d.facultyIx)[d.prodiIx], d.angkatan, d.semesterAktif, d.ipk, d.totalSks,
      d.sksLulus, StudentStatuses[d.statusIx], TahunAkademik)
  }

  /** The batch `generate_student_performance(count)` appends. */
  function PerformanceRows(count: nat, draws: seq<PerformanceDraw>): seq<StudentPerformance>
    requires ValidPerformanceDraws(count, draws)
  {
    seq(count, i requires 0 <= i < count => PerformanceRow(i, draws[i]))
  }

  /** The `for i in range(count)` loop that fills `data`. */
  method BuildPerformanceRows(count: nat, draws: seq<PerformanceDraw>) returns (data: seq<StudentPerformance>)
    requires ValidPerformanceDraws(count, draws)
    ensures data == PerformanceRows(count, draws)
  {
    data := [];
    for i := 0 to count
      invariant data == PerformanceRows(count, draws)[..i]
    {
      data := data + [PerformanceRow(i, draws[i])];
    }
  }

  /** Exactly `count` rows; each programme belongs to its row's faculty and
      each status is one of Aktif, Cuti, Lulus (never 'DO'). */
  lemma PerformanceRowsFacts(count: nat, draws: seq<PerformanceDraw>)
    requires ValidPerformanceDraws(count, draws)
    ensures |PerformanceRows(count, draws)| == count
    ensures forall r :: r in PerformanceRows(count, draws) ==>
      && r.fakultas in ProdiDict && r.programStudi in ProdiDict[r.fakultas]
      && r.statusMahasiswa in {"Aktif", "Cuti", "Lulus"} && r.statusMahasiswa != "DO"
      && 2020 <= r.angkatan <= 2024 && 1 <= r.semesterAktif <= 8 && 2.0 <= r.ipk <= 4.0
  {
  }

  /** The student number is the 4-digit intake year, two digits, then the
      padded running number. */
  lemma NimSuffix(angkatan: nat, digits: nat, i: nat)
    requires 2020 <= angkatan <= 2024 && 10 <= digits <= 99
    ensures |Nim(angkatan, digits, i)| == 6 + |ZeroPad(i + 1, 4)|
    ensures Nim(angkatan, digits, i)[6..] == ZeroPad(i + 1, 4)
  {
    assert Pow10(3) == 1000 && Pow10(4) == 10000;
    DecimalWidth(angkatan, 4);
    DecimalWidth(digits, 2);
  }

  /** With at most 9999 rows every nim has 10 characters and ends in the
      zero-padded `i + 1`. */
  lemma NimShape(count: nat, draws: seq<PerformanceDraw>)
    requires ValidPerformanceDraws(count, draws) && count <= 9999
    ensures forall i :: 0 <= i < count ==>
      |PerformanceRows(count, draws)[i].nim| == 10 && PerformanceRows(count, draws)[i].nim[6..] == ZeroPad(i + 1, 4)
  {
    forall i | 0 <= i < count
      ensures |PerformanceRows(count, draws)[i].nim| == 10 && PerformanceRows(count, draws)[i].nim[6..] == ZeroPad(i + 1, 4)
    {
      NimSuffix(draws[i].angkatan, draws[i].nimDigits, i);
      ZeroPadWidth(i + 1, 4);
    }
  }

  /** The nims of one batch are pairwise different, whatever the random
      digits: the running number is recoverable from the suffix. */
  lemma NimsDistinct(count: nat, draws: seq<PerformanceDraw>)
    requires ValidPerformanceDraws(count, draws)
    ensures forall i, j :: 0 <= i < j < count ==> PerformanceRows(count, draws)[i].nim != PerformanceRows(count, draws)[j].nim
  {
    forall i, j | 0 <= i < j < count
      ensures PerformanceRows(count, draws)[i].nim != PerformanceRows(count, draws)[j].nim
    {
      NimSuffix(draws[i].angkatan, draws[i].nimDigits, i);
      NimSuffix(draws[j].angkatan, draws[j].nimDigits, j);
      if PerformanceRows(count, draws)[i].nim == PerformanceRows(count, draws)[j].nim {
        ZeroPadInjective(i + 1, j + 1, 4);
      }
    }
  }

  // ---------------------------------------------------------------------
  // the fabricated students used when the parent read raises

  datatype FallbackStudentDraw = FallbackStudentDraw(nama: string, facultyIx: nat, prodiFacultyIx: nat, prodiIx: nat)

  predicate ValidFallbackStudentDraw(d: FallbackStudentDraw) {
    d.facultyIx < |Faculties| && d.prodiFacultyIx < |Faculties| && d.prodiIx < |Programmes(d.prodiFacultyIx)|
  }

  predicate ValidFallbackStudents(draws: seq<FallbackStudentDraw>) {
    |draws| == 200 && forall i :: 0 <= i < 200 ==> ValidFallbackStudentDraw(draws[i])
  }

  /** `f"202{i // 50}{(i % 50) + 1:02d}001"` */
  function FallbackNim(i: nat): string {
    "202" + Decimal(i / 50) + ZeroPad(i % 50 + 1, 2) + "001"
  }

  /** 200 students; the programme is drawn from an independently chosen
      faculty (`prodi_dict[random.choice(fakultas_list)]`). */
  function FallbackStudents(draws: seq<FallbackStudentDraw>): seq<StudentRef>
    requires ValidFallbackStudents(draws)
  {
    seq(200, i requires 0 <= i < 200 =>
      StudentRef(FallbackNim(i), draws[i].nama, Faculties[draws[i].facultyIx],
                 Programmes(draws[i].prodiFacultyIx)[draws[i].prodiIx]))
  }

  lemma FallbackNimParts(i: nat)
    requires i < 200
    ensures |FallbackNim(i)| == 9
    ensures FallbackNim(i)[3..4] == Decimal(i / 50) && FallbackNim(i)[4..6] == ZeroPad(i % 50 + 1, 2)
  {
    DecimalLength(i / 50, 1);
    ZeroPadWidth(i % 50 + 1, 2);
  }

  /** The 200 fabricated nims are pairwise different. */
  lemma FallbackNimsDistinct()
    ensures forall i, j :: 0 <= i < j < 200 ==> FallbackNim(i) != FallbackNim(j)
  {
    forall i, j | 0 <= i < j < 200
      ensures FallbackNim(i) != FallbackNim(j)
    {
      FallbackNimParts(i);
      FallbackNimParts(j);
      assert i / 50 != j / 50 || i % 50 != j % 50;
      if i / 50 != j / 50 {
        DecimalValue(i / 50);
        DecimalValue(j / 50);
        assert FallbackNim(i)[3..4] != FallbackNim(j)[3..4];
      } else {
        ZeroPadValue(i % 50 + 1, 2);
        ZeroPadValue(j % 50 + 1, 2);
        assert FallbackNim(i)[4..6] != FallbackNim(j)[4..6];
      }
    }
  }

  /** The fallback's programme comes from some faculty's list, but not
      necessarily from the row's own faculty: here a Teknik student
      studies Manajemen. */
  lemma FallbackProgrammeMayMismatch(draws: seq<FallbackStudentDraw>)
    requires ValidFallbackStudents(draws)
    requires draws[0] == FallbackStudentDraw("Budi", 0, 1, 0)
    ensures FallbackStudents(draws)[0].fakultas == "Fakultas Teknik"
    ensures FallbackStudents(draws)[0].programStudi == "Manajemen"
    ensures FallbackStudents(draws)[0].programStudi !in ProdiDict[FallbackStudents(draws)[0].fakultas]
  {
  }

  /** `students_df`: the rows read back, or the fabricated ones when the read raised. */
  function StudentParents(read: Result<seq<StudentRef>>, fallback: seq<FallbackStudentDraw>): (ps: seq<StudentRef>)
    requires ValidFallbackStudents(fallback)
    ensures read.Failure? ==> |ps| == 200
  {
    if read.Success? then read.value else FallbackStudents(fallback)
  }

  // ---------------------------------------------------------------------
  // student_attendance

  datatype AttendanceDraw = AttendanceDraw(courseIx: nat, kode: nat, semester: int, hadir: int, izin: int)

  predicate ValidAttendanceDraw(d: AttendanceDraw) {
    d.courseIx < 4 && 1001 <= d.kode <= 9999 && 1 <= d.semester <= 8 && 8 <= d.hadir <= 14 && 0 <= d.izin <= 3
  }

  predicate ValidAttendanceDraws(count: nat, draws: seq<AttendanceDraw>) {
    |draws| == count && forall i :: 0 <= i < count ==> ValidAttendanceDraw(draws[i])
  }

  /** One attendance row for student `s`: absences are whatever of the 14
      meetings is left after presences and excused absences. */
  function AttendanceRow(s: StudentRef, d: AttendanceDraw): StudentAttendance
    requires ValidAttendanceDraw(d)
  {
    ShortCourseList(s.programStudi);
    StudentAttendance(
      s.nim, s.namaMahasiswa, s.fakultas, s.programStudi,
      CourseList(ShortCourseLists, s.programStudi)[d.courseIx], "MK" + Decimal(d.kode),
      d.semester, TotalPertemuan, d.hadir, d.izin, TotalPertemuan - d.hadir - d.izin,
      d.hadir as real / 14.0 * 100.0, TahunAkademik)
  }

  /** The batch `generate_student_attendance(count)` appends: row `i` is for
      student `i mod len(students_df)`, and nothing at all when the sample
      is empty. */
  function AttendanceRows(parents: seq<StudentRef>, count: nat, draws: seq<AttendanceDraw>): seq<StudentAttendance>
    requires ValidAttendanceDraws(count, draws)
  {
    if |parents| == 0 then []
    else seq(count, i requires 0 <= i < count => AttendanceRow(parents[i % |parents|], draws[i]))
  }

  method BuildAttendanceRows(parents: seq<StudentRef>, count: nat, draws: seq<AttendanceDraw>)
    returns (data: seq<StudentAttendance>)
    requires ValidAttendanceDraws(count, draws)
    ensures data == AttendanceRows(parents, count, draws)
  {
    data := [];
    for i := 0 to count
      invariant |parents| > 0 ==> data == AttendanceRows(parents, count, draws)[..i]
      invariant |parents| == 0 ==> data == []
    {
      if |parents| > 0 {
        data := data + [AttendanceRow(parents[i % |parents|], draws[i])];
      }
    }
  }

  /** `hadir + izin + alpha == 14 == total_pertemuan`, the percentage is
      `hadir / 14 * 100` (before rounding), and alpha lies in -3..6. */
  lemma AttendanceArithmetic(parents: seq<StudentRef>, count: nat, draws: seq<AttendanceDraw>)
    requires ValidAttendanceDraws(count, draws)
    ensures forall r :: r in AttendanceRows(parents, count, draws) ==>
      && r.hadir + r.izin + r.alpha == 14 == r.totalPertemuan
      && r.persentaseKehadiran == r.hadir as real / 14.0 * 100.0
      && 8 <= r.hadir <= 14 && 0 <= r.izin <= 3 && -3 <= r.alpha <= 6
  {
  }

  /** alpha is not guaranteed non-negative: 14 presences and 3 excused
      absences give -3 unexcused absences. */
  lemma NegativeAbsence(s: StudentRef)
    ensures AttendanceRow(s, AttendanceDraw(0, 1001, 1, 14, 3)).alpha == -3
  {
  }

  /** Row `i` copies nim, name, faculty and programme from parent `i mod n`;
      `count` rows for a non-empty parent sample, none otherwise. */
  lemma AttendanceLinkage(parents: seq<StudentRef>, count: nat, draws: seq<AttendanceDraw>)
    requires ValidAttendanceDraws(count, draws)
    ensures |AttendanceRows(parents, count, draws)| == if |parents| > 0 then count else 0
    ensures forall i :: 0 <= i < |AttendanceRows(parents, count, draws)| ==>
      var r := AttendanceRows(parents, count, draws)[i];
      StudentRef(r.nim, r.namaMahasiswa, r.fakultas, r.programStudi) == parents[i % |parents|]
  {
  }

  // ---------------------------------------------------------------------
  // student_finance

  datatype FinanceDraw = FinanceDraw(feeIx: nat, statusIx: nat, fraction: real, semesterIx: nat, tanggalBayar: int, methodIx: nat)

  predicate ValidFinanceDraw(d: FinanceDraw) {
    d.feeIx < |TuitionFees| && d.statusIx < |PaymentStatuses| && 0.3 <= d.fraction <= 0.8
    && d.semesterIx < |Semesters| && d.methodIx < |PaymentMethods|
  }

  predicate ValidFinanceDraws(count: nat, draws: seq<FinanceDraw>) {
    |draws| == count && forall i :: 0 <= i < count ==> ValidFinanceDraw(draws[i])
  }

  /** The amount paid for a bill under a payment status: all of it, the
      drawn fraction of it, or nothing. */
  function AmountPaid(tagihan: int, status: string, fraction: real): real {
    if status == "Lunas" then tagihan as real
    else if status == "Belum Lunas" then tagihan as real * fraction
    else 0.0
  }

  function FinanceRow(s: StudentRef, d: FinanceDraw): StudentFinance
    requires ValidFinanceDraw(d)
  {
    var tagihan := TuitionFees[d.feeIx];
    var status := PaymentStatuses[d.statusIx];
    var dibayar := AmountPaid(tagihan, status, d.fraction);
    StudentFinance(
      s.nim, s.namaMahasiswa, s.fakultas, s.programStudi, Semesters[d.semesterIx], TahunAkademik,
      tagihan, dibayar, tagihan as real - dibayar, status,
      if status == "Lunas" then Some(d.tanggalBayar) else None, PaymentMethods[d.methodIx])
  }

  function FinanceRows(parents: seq<StudentRef>, count: nat, draws: seq<FinanceDraw>): seq<StudentFinance>
    requires ValidFinanceDraws(count, draws)
  {
    if |parents| == 0 then []
    else seq(count, i requires 0 <= i < count => FinanceRow(parents[i % |parents|], draws[i]))
  }

  method BuildFinanceRows(parents: seq<StudentRef>, count: nat, draws: seq<FinanceDraw>)
    returns (data: seq<StudentFinance>)
    requires ValidFinanceDraws(count, draws)
    ensures data == FinanceRows(parents, count, draws)
  {
    hide FinanceRow;
    data := [];
    for i := 0 to count
      invariant |parents| > 0 ==> data == FinanceRows(parents, count, draws)[..i]
      invariant |parents| == 0 ==> data == []
    {
      if |parents| > 0 {
        data := data + [FinanceRow(parents[i % |parents|], draws[i])];
      }
    }
  }

  lemma FinanceLinkage(parents: seq<StudentRef>, count: nat, draws: seq<FinanceDraw>)
    requires ValidFinanceDraws(count, draws)
    ensures |FinanceRows(parents, count, draws)| == if |parents| > 0 then count else 0
    ensures forall i :: 0 <= i < |FinanceRows(parents, count, draws)| ==>
      var r := FinanceRows(parents, count, draws)[i];
      StudentRef(r.nim, r.namaMahasiswa, r.fakultas, r.programStudi) == parents[i % |parents|]
  {
  }

  lemma PartialPaymentBounds(t: real, f: real)
    requires t >= 0.0 && 0.3 <= f <= 0.8
    ensures 0.3 * t <= t * f <= 0.8 * t
  {
  }

  /** The payment-status rules: Lunas means paid in full with a payment
      date, Menunggak means nothing paid and no date, Belum Lunas means
      between 30% and 80% paid; the outstanding amount is always the bill
      minus the payment, and never more than the bill. */
  predicate PaymentRules(r: StudentFinance) {
    && r.statusPembayaran in {"Lunas", "Belum Lunas", "Menunggak"}
    && r.sisaTagihan == r.jumlahTagihan as real - r.jumlahDibayar
    && 0.0 <= r.jumlahDibayar <= r.jumlahTagihan as real
    && (r.statusPembayaran == "Lunas" ==>
          r.jumlahDibayar == r.jumlahTagihan as real && r.sisaTagihan == 0.0 && r.tanggalBayar.Some?)
    && (r.statusPembayaran == "Menunggak" ==>
          r.jumlahDibayar == 0.0 && r.sisaTagihan == r.jumlahTagihan as real && r.tanggalBayar.None?)
    && (r.statusPembayaran == "Belum Lunas" ==>
          0.3 * r.jumlahTagihan as real <= r.jumlahDibayar <= 0.8 * r.jumlahTagihan as real
          && r.tanggalBayar.None?)
  }

  /** One finance row keeps the payment-status rules. */
  lemma FinanceRowRules(s: StudentRef, d: FinanceDraw)
    requires ValidFinanceDraw(d)
    ensures PaymentRules(FinanceRow(s, d))
  {
    PartialPaymentBounds(TuitionFees[d.feeIx] as real, d.fraction);
  }

  /** Every row of `student_finance` keeps the payment-status rules. */
  lemma FinanceStatusRules(parents: seq<StudentRef>, count: nat, draws: seq<FinanceDraw>)
    requires ValidFinanceDraws(count, draws)
    ensures forall r :: r in FinanceRows(parents, count, draws) ==> PaymentRules(r)
  {
    hide FinanceRow, PaymentRules;
    var rows := FinanceRows(parents, count, draws);
    forall r | r in rows
      ensures PaymentRules(r)
    {
      var i :| 0 <= i < |rows| && rows[i] == r;
      FinanceRowRules(parents[i % |parents|], draws[i]);
    }
  }

  /** When the read succeeded, every child row names a student that is in
      student_performance. */
  lemma ChildrenReferenceStudents(table: seq<StudentPerformance>, read: Result<seq<StudentRef>>,
                                  fallback: seq<FallbackStudentDraw>, count: nat, draws: seq<AttendanceDraw>)
    requires ValidFallbackStudents(fallback) && ValidAttendanceDraws(count, draws)
    requires read.Success? && ReadOf(read, StudentRefs(table), Some(200))
    ensures forall r :: r in AttendanceRows(StudentParents(read, fallback), count, draws) ==>
      StudentRef(r.nim, r.namaMahasiswa, r.fakultas, r.programStudi) in StudentRefs(table)
  {
    var ps := StudentParents(read, fallback);
    SampleRowsFromTable(read.value, StudentRefs(table), Some(200));
    AttendanceLinkage(ps, count, draws);
    forall r | r in AttendanceRows(ps, count, draws)
      ensures StudentRef(r.nim, r.namaMahasiswa, r.fakultas, r.programStudi) in StudentRefs(table)
    {
      var i :| 0 <= i < |AttendanceRows(ps, count, draws)| && AttendanceRows(ps, count, draws)[i] == r;
      assert ps[i % |ps|] in StudentRefs(table);
    }
  }

  // ---------------------------------------------------------------------
  // the generator

  /** Everything `generate_all` draws, and what its two reads return. */
  datatype MahasiswaDraws = MahasiswaDraws(
    performance: seq<PerformanceDraw>,
    attendanceRead: Result<seq<StudentRef>>, attendanceFallback: seq<FallbackStudentDraw>,
    attendance: seq<AttendanceDraw>,
    financeRead: Result<seq<StudentRef>>, financeFallback: seq<FallbackStudentDraw>,
    finance: seq<FinanceDraw>)

  /** What `generate_all` needs: draws in range, and both reads taken from
      the student table once its 500 new students are in (`sp` is the table
      before the call). */
  predicate AllReady(sp: seq<StudentPerformance>, d: MahasiswaDraws) {
    && ValidPerformanceDraws(500, d.performance)
    && ReadOf(d.attendanceRead, StudentRefs(sp + PerformanceRows(500, d.performance)), Some(200))
    && ValidFallbackStudents(d.attendanceFallback) && ValidAttendanceDraws(800, d.attendance)
    && ReadOf(d.financeRead, StudentRefs(sp + PerformanceRows(500, d.performance)), Some(200))
    && ValidFallbackStudents(d.financeFallback) && ValidFinanceDraws(400, d.finance)
  }

  /** The student tables of the datamart. */
  datatype StudentTables = StudentTables(performance: seq<StudentPerformance>, attendance: seq<StudentAttendance>, finance: seq<StudentFinance>)

  /** The three student tables after `generate_all`, given what they held
      before: each has its batch appended. */
  function Generated(before: StudentTables, d: MahasiswaDraws): StudentTables
    requires AllReady(before.performance, d)
  {
    StudentTables(
      before.performance + PerformanceRows(500, d.performance),
      before.attendance + AttendanceRows(StudentParents(d.attendanceRead, d.attendanceFallback), 800, d.attendance),
      before.finance + FinanceRows(StudentParents(d.financeRead, d.financeFallback), 400, d.finance))
  }

  /** After `generate_all` the student performance table keeps its old
      rows as a prefix and gains 500 rows, each with a programme of its
      faculty and a status other than DO, whose student numbers are
      pairwise different. */
  lemma GeneratedPerformance(before: StudentTables, d: MahasiswaDraws)
    requires AllReady(before.performance, d)
    ensures Generated(before, d).performance == before.performance + PerformanceRows(500, d.performance)
    ensures |Generated(before, d).performance| == |before.performance| + 500
    ensures Generated(before, d).performance[..|before.performance|] == before.performance
    ensures forall i, j :: |before.performance| <= i < j < |Generated(before, d).performance| ==>
      Generated(before, d).performance[i].nim != Generated(before, d).performance[j].nim
    ensures forall i :: |before.performance| <= i < |Generated(before, d).performance| ==>
      var r := Generated(before, d).performance[i];
      r.fakultas in ProdiDict && r.programStudi in ProdiDict[r.fakultas] && r.statusMahasiswa != "DO"
  {
    var n := |before.performance|;
    var rows := PerformanceRows(500, d.performance);
    var p := Generated(before, d).performance;
    PerformanceRowsFacts(500, d.performance);
    NimsDistinct(500, d.performance);
    assert p == before.performance + rows;
    forall i, j | n <= i < j < |p|
      ensures p[i].nim != p[j].nim
    {
      assert p[i] == rows[i - n] && p[j] == rows[j - n];
    }
    forall i | n <= i < |p|
      ensures p[i].fakultas in ProdiDict && p[i].programStudi in ProdiDict[p[i].fakultas] && p[i].statusMahasiswa != "DO"
    {
      assert p[i] == rows[i - n] && rows[i - n] in rows;
    }
  }

  class MahasiswaGenerator {
    const db: Datamart

    constructor (db: Datamart)
      ensures this.db == db
    {
      this.db := db;
    }

    method GenerateStudentPerformance(count: nat, draws: seq<PerformanceDraw>)
      requires ValidPerformanceDraws(count, draws)
      modifies db`studentPerformance
      ensures db.studentPerformance == old(db.studentPerformance) + PerformanceRows(count, draws)
    {
      var data := BuildPerformanceRows(count, draws);
      db.studentPerformance := db.studentPerformance + data;
    }

    method GenerateStudentAttendance(count: nat, read: Result<seq<StudentRef>>,
                                     fallback: seq<FallbackStudentDraw>, draws: seq<AttendanceDraw>)
      requires ReadOf(read, StudentRefs(db.studentPerformance), Some(200))
      requires ValidFallbackStudents(fallback) && ValidAttendanceDraws(count, draws)
      modifies db`studentAttendance
      ensures db.studentAttendance == old(db.studentAttendance) + AttendanceRows(StudentParents(read, fallback), count, draws)
    {
      var students := StudentParents(read, fallback);
      var data := BuildAttendanceRows(students, count, draws);
      db.studentAttendance := db.studentAttendance + data;
    }

    method GenerateStudentFinance(count: nat, read: Result<seq<StudentRef>>,
                                  fallback: seq<FallbackStudentDraw>, draws: seq<FinanceDraw>)
      requires ReadOf(read, StudentRefs(db.studentPerformance), Some(200))
      requires ValidFallbackStudents(fallback) && ValidFinanceDraws(count, draws)
      modifies db`studentFinance
      ensures db.studentFinance == old(db.studentFinance) + FinanceRows(StudentParents(read, fallback), count, draws)
    {
      var students := StudentParents(read, fallback);
      var data := BuildFinanceRows(students, count, draws);
      db.studentFinance := db.studentFinance + data;
    }

    /** 500 students first, so that both children read a table that
        already holds them; then 800 attendance and 400 finance rows. */
    method GenerateAll(ghost sp: seq<StudentPerformance>, d: MahasiswaDraws)
      requires db.studentPerformance == sp && AllReady(sp, d)
      modifies db`studentPerformance, db`studentAttendance, db`studentFinance
      ensures StudentTables(db.studentPerformance, db.studentAttendance, db.studentFinance)
        == Generated(StudentTables(old(db.studentPerformance), old(db.studentAttendance), old(db.studentFinance)), d)
    {
      GenerateStudentPerformance(500, d.performance);
      GenerateStudentAttendance(800, d.attendanceRead, d.attendanceFallback, d.attendance);
      GenerateStudentFinance(400, d.financeRead, d.financeFallback, d.finance);
    }
  }
}
