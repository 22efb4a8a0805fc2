/** The relational datamart as the generators see it: fifteen tables in the
    `datamart` schema, each an append-only list of rows (`to_sql(...,
    if_exists='append')`), except `faculty_statistics`, whose rows are
    updated in place. Dates are day numbers; the columns that the source
    fills with `round(random.uniform(...), 2)` are reals. */
module Datamart {
  import opened Wrappers

  // ---- student collection ----
  datatype StudentPerformance = StudentPerformance(
    nim: string, namaMahasiswa: string, jenisKelamin: string, fakultas: string,
    programStudi: string, angkatan: int, semesterAktif: int, ipk: real, totalSks: int,
    sksLulus: int, statusMahasiswa: string, tahunAkademik: string)

  datatype StudentAttendance = StudentAttendance(
    nim: string, namaMahasiswa: string, fakultas: string, programStudi: string,
    mataKuliah: string, kodeMatkul: string, semester: int, totalPertemuan: int,
    hadir: int, izin: int, alpha: int, persentaseKehadiran: real, tahunAkademik: string)

  datatype StudentFinance = StudentFinance(
    nim: string, namaMahasiswa: string, fakultas: string, programStudi: string,
    semester: string, tahunAkademik: string, jumlahTagihan: int, jumlahDibayar: real,
    sisaTagihan: real, statusPembayaran: string, tanggalBayar: Option<int>,
    metodePembayaran: string)

  // ---- lecturer collection ----
  datatype LecturerProfile = LecturerProfile(
    nip: string, namaDosen: string, jenisKelamin: string, fakultas: string,
    programStudi: string, pendidikanTerakhir: string, jabatanFungsional: string,
    golongan: string, totalMataKuliah: int, totalMahasiswaBimbingan: int, bebanSks: int,
    statusAktif: bool, tahunAkademik: string)

  datatype LecturerTeaching = LecturerTeaching(
    nip: string, namaDosen: string, fakultas: string, mataKuliah: string,
    kodeMatkul: string, kelas: string, jumlahMahasiswa: int, rataRataNilai: real,
    rataRataKehadiran: real, tingkatKelulusan: real, semester: string, tahunAkademik: string)

  datatype LecturerActivity = LecturerActivity(
    nip: string, namaDosen: string, fakultas: string, jumlahPenelitian: int,
    jumlahPublikasi: int, jumlahPengabdian: int, totalDanaPenelitian: int,
    pelatihanDiikuti: int, sertifikasiDimiliki: int, tahunAkademik: string)

  // ---- academic collection ----
  datatype CoursePerformance = CoursePerformance(
    kodeMatkul: string, namaMatkul: string, fakultas: string, programStudi: string,
    sks: int, semester: int, jenisMatkul: string, dosenPengampu: string,
    jumlahPeserta: nat, rataRataNilai: real, tingkatKelulusan: real,
    rataRataKehadiran: real, tahunAkademik: string)

  datatype GradeDistribution = GradeDistribution(
    kodeMatkul: string, namaMatkul: string, fakultas: string, programStudi: string,
    dosenPengampu: string, jumlahA: int, jumlahAB: int, jumlahB: int, jumlahBC: int,
    jumlahC: int, jumlahD: int, jumlahE: int, totalMahasiswa: int, semester: string,
    tahunAkademik: string)

  datatype AcademicTrend = AcademicTrend(
    periode: string, fakultas: string, programStudi: string, metrik: string,
    nilai: real, satuan: string, persentasePerubahan: real, kategori: string,
    deskripsi: string, tahunAkademik: string)

  // ---- financial collection ----
  datatype RevenueSummary = RevenueSummary(
    periode: string, fakultas: string, programStudi: string, jenisPendapatan: string,
    totalTagihan: int, totalTerbayar: real, totalOutstanding: real,
    jumlahMahasiswa: int, tingkatKolektibilitas: real, tahunAkademik: string)

  datatype PaymentAnalysis = PaymentAnalysis(
    periode: string, fakultas: string, metodePembayaran: string, jumlahTransaksi: int,
    totalNominal: int, rataRataWaktuBayar: int, tingkatKeterlambatan: real,
    jumlahCicilan: int, tahunAkademik: string)

  datatype FinancialKpi = FinancialKpi(
    periode: string, fakultas: string, totalRevenue: int, collectionRate: real,
    badDebtRatio: real, averagePaymentTime: int, scholarshipDisbursed: int,
    operationalCost: int, netIncome: int, tahunAkademik: string)

  // ---- institutional collection ----
  datatype FacultyStatistics = FacultyStatistics(
    fakultas: string, dekan: string, tahunBerdiri: int, jumlahProgramStudi: int,
    jumlahDosen: int, jumlahMahasiswaAktif: int, jumlahLulusanTahunIni: int,
    rataRataIpkFakultas: real, tingkatKehadiranRata: real, akreditasiFakultas: string,
    rankingNasional: int, tahunAkademik: string)

  datatype UniversityPerformance = UniversityPerformance(
    periode: string, totalMahasiswa: int, totalDosen: int, totalProgramStudi: int,
    totalFakultas: int, rataRataIpkUniversitas: real, tingkatKelulusan: real,
    tingkatDropOut: real, studentLecturerRatio: real, tingkatKepuasanMahasiswa: real,
    akreditasiInstitusi: string, tahunAkademik: string)

  datatype AccreditationStatus = AccreditationStatus(
    unitName: string, unitType: string, fakultas: string, akreditasiCurrent: string,
    tanggalAkreditasi: int, masaBerlaku: int, akreditasiPrevious: string,
    statusRenewal: string, targetAkreditasi: string, progressPercentage: real,
    tahunAkademik: string)

  // ---- the column subsets that children read back from their parents ----

  /** `SELECT nim, nama_mahasiswa, fakultas, program_studi FROM datamart.student_performance` */
  datatype StudentRef = StudentRef(nim: string, namaMahasiswa: string, fakultas: string, programStudi: string)

  /** `SELECT nip, nama_dosen, fakultas, program_studi FROM datamart.lecturer_profile` */
  datatype LecturerRef = LecturerRef(nip: string, namaDosen: string, fakultas: string, programStudi: string)

  /** `SELECT nip, nama_dosen, fakultas FROM datamart.lecturer_profile` */
  datatype LecturerId = LecturerId(nip: string, namaDosen: string, fakultas: string)

  /** `SELECT kode_matkul, nama_matkul, fakultas, program_studi, jumlah_peserta FROM datamart.course_performance` */
  datatype CourseRef = CourseRef(kodeMatkul: string, namaMatkul: string, fakultas: string, programStudi: string, jumlahPeserta: nat)

  function StudentRefs(t: seq<StudentPerformance>): (rs: seq<StudentRef>)
    ensures |rs| == |t|
  {
    seq(|t|, i requires 0 <= i < |t| => StudentRef(t[i].nim, t[i].namaMahasiswa, t[i].fakultas, t[i].programStudi))
  }

  function LecturerRefs(t: seq<LecturerProfile>): (rs: seq<LecturerRef>)
    ensures |rs| == |t|
  {
    seq(|t|, i requires 0 <= i < |t| => LecturerRef(t[i].nip, t[i].namaDosen, t[i].fakultas, t[i].programStudi))
  }

  function LecturerIds(t: seq<LecturerProfile>): (rs: seq<LecturerId>)
    ensures |rs| == |t|
  {
    seq(|t|, i requires 0 <= i < |t| => LecturerId(t[i].nip, t[i].namaDosen, t[i].fakultas))
  }

  function CourseRefs(t: seq<CoursePerformance>): (rs: seq<CourseRef>)
    ensures |rs| == |t|
  {
    seq(|t|, i requires 0 <= i < |t| => CourseRef(t[i].kodeMatkul, t[i].namaMatkul, t[i].fakultas, t[i].programStudi, t[i].jumlahPeserta))
  }

  function Min(a: nat, b: nat): nat {
    if a <= b then a else b
  }

  /** What a successful `pd.read_sql` of a parent table may return: `LIMIT n`
      yields `min(n, |table|)` of its rows (no LIMIT: all of them), in an
      order and choice the database is free to make. */
  predicate SampleOf<T(==)>(rows: seq<T>, table: seq<T>, limit: Option<nat>)
  {
    && |rows| == (if limit.Some? then Min(limit.value, |table|) else |table|)
    && multiset(rows) <= multiset(table)
  }

  /** A parent read: the rows the database returned, or the exception it raised. */
  predicate ReadOf<T(==)>(read: Result<seq<T>>, table: seq<T>, limit: Option<nat>)
  {
    read.Success? ==> SampleOf(read.value, table, limit)
  }

  /** Every row of a sample is a row of the table. */
  lemma SampleRowsFromTable<T>(rows: seq<T>, table: seq<T>, limit: Option<nat>)
    requires SampleOf(rows, table, limit)
    ensures forall k :: 0 <= k < |rows| ==> rows[k] in table
    ensures |rows| == 0 <==> (|table| == 0 || limit == Some(0))
  {
    forall k | 0 <= k < |rows|
      ensures rows[k] in table
    {
      assert rows[k] in multiset(rows);
    }
  }

  /** A read without LIMIT returns every row of the table exactly once. */
  lemma FullReadIsPermutation<T>(rows: seq<T>, table: seq<T>)
    requires SampleOf(rows, table, None)
    ensures multiset(rows) == multiset(table)
  {
    var rest := multiset(table) - multiset(rows);
    assert multiset(table) == multiset(rows) + rest;
    assert |rest| == 0;
  }

  /** The database: one field per table, holding whatever rows the
      connected database already has; the generators only append to it
      (and update `faculty_statistics` in place). */
  class Datamart {
    var studentPerformance: seq<StudentPerformance>
    var studentAttendance: seq<StudentAttendance>
    var studentFinance: seq<StudentFinance>
    var lecturerProfile: seq<LecturerProfile>
    var lecturerTeaching: seq<LecturerTeaching>
    var lecturerActivity: seq<LecturerActivity>
    var coursePerformance: seq<CoursePerformance>
    var gradeDistribution: seq<GradeDistribution>
    var academicTrends: seq<AcademicTrend>
    var revenueSummary: seq<RevenueSummary>
    var paymentAnalysis: seq<PaymentAnalysis>
    var financialKpi: seq<FinancialKpi>
    var facultyStatistics: seq<FacultyStatistics>
    var universityPerformance: seq<UniversityPerformance>
    var accreditationStatus: seq<AccreditationStatus>
  }
}
