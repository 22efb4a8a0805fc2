/** The reference catalog that every generator and trainer carries its own
    copy of: five faculties, the study programmes of each faculty
    (`prodi_dict`) and the course names per programme (`mata_kuliah_list`).
    The copies agree, except that the academic generator lists eight
    courses per programme where the student and lecturer generators list four. */
module Catalog {

  /** The academic year written into almost every row. */
  const TahunAkademik: string := "2024/2025"

  /** `fakultas_list` */
  const Faculties: seq<string> := [
    "Fakultas Teknik",
    "Fakultas Ekonomi dan Bisnis",
    "Fakultas Ilmu Komputer",
    "Fakultas Kedokteran",
    "Fakultas Hukum"
  ]

  /** `prodi_dict` */
  const ProdiDict: map<string, seq<string>> := map[
    "Fakultas Teknik" := ["Teknik Informatika", "Teknik Elektro", "Teknik Sipil", "Teknik Mesin", "Teknik Industri"],
    "Fakultas Ekonomi dan Bisnis" := ["Manajemen", "Akuntansi", "Ekonomi Pembangunan", "Bisnis Digital"],
    "Fakultas Ilmu Komputer" := ["Sistem Informasi", "Ilmu Komputer", "Teknologi Informasi"],
    "Fakultas Kedokteran" := ["Pendidikan Dokter", "Keperawatan"],
    "Fakultas Hukum" := ["Ilmu Hukum", "Hukum Bisnis"]
  ]

  /** `prodi_dict[fakultas_list[fi]]` */
  function Programmes(fi: nat): (ps: seq<string>)
    requires fi < |Faculties|
    ensures Faculties[fi] in ProdiDict && ps == ProdiDict[Faculties[fi]] && |ps| >= 2
  {
    ProdiDict[Faculties[fi]]
  }

  /** `mata_kuliah_list` of the student and lecturer generators. */
  const ShortCourseLists: map<string, seq<string>> := map[
    "Teknik Informatika" := ["Algoritma dan Pemrograman", "Struktur Data", "Basis Data", "Jaringan Komputer"],
    "Teknik Elektro" := ["Rangkaian Listrik", "Elektronika Dasar", "Sistem Kontrol", "Mikroprosessor"],
    "Manajemen" := ["Manajemen Keuangan", "Pemasaran", "Manajemen SDM", "Manajemen Operasi"],
    "Akuntansi" := ["Akuntansi Dasar", "Akuntansi Keuangan", "Akuntansi Biaya", "Auditing"],
    "Sistem Informasi" := ["Analisis Sistem", "Perancangan Sistem", "Pemrograman Web", "Mobile Programming"],
    "Default" := ["Matematika Dasar", "Bahasa Indonesia", "Bahasa Inggris", "Pancasila"]
  ]

  /** `mata_kuliah_list` of the academic generator. */
  const LongCourseLists: map<string, seq<string>> := map[
    "Teknik Informatika" := ["Algoritma dan Pemrograman", "Struktur Data", "Basis Data", "Jaringan Komputer",
                             "Rekayasa Perangkat Lunak", "Sistem Operasi", "Pemrograman Web", "Kecerdasan Buatan"],
    "Teknik Elektro" := ["Rangkaian Listrik", "Elektronika Dasar", "Sistem Kontrol", "Mikroprosessor",
                         "Sistem Tenaga Listrik", "Elektronika Daya", "Komunikasi Data", "Sistem Embedded"],
    "Manajemen" := ["Manajemen Keuangan", "Pemasaran", "Manajemen SDM", "Manajemen Operasi", "Kewirausahaan",
                    "Manajemen Strategis", "Perilaku Organisasi", "Manajemen Risiko"],
    "Akuntansi" := ["Akuntansi Dasar", "Akuntansi Keuangan", "Akuntansi Biaya", "Auditing", "Perpajakan",
                    "Sistem Informasi Akuntansi", "Akuntansi Manajemen", "Analisis Laporan Keuangan"],
    "Sistem Informasi" := ["Analisis Sistem", "Perancangan Sistem", "Pemrograman Web", "Mobile Programming",
                           "Data Mining", "E-Business", "Manajemen Proyek TI", "Keamanan Sistem Informasi"],
    "Default" := ["Matematika Dasar", "Bahasa Indonesia", "Bahasa Inggris", "Pancasila", "Kewarganegaraan",
                  "Agama", "Statistika", "Fisika Dasar"]
  ]

  /** `mata_kuliah_list.get(prodi, mata_kuliah_list['Default'])` */
  function CourseList(lists: map<string, seq<string>>, prodi: string): seq<string>
    requires "Default" in lists
  {
    if prodi in lists then lists[prodi] else lists["Default"]
  }

  /** The programme's own list when it has one, the 'Default' list otherwise,
      and four courses to choose from either way. */
  lemma ShortCourseList(prodi: string)
    ensures prodi in ShortCourseLists ==> CourseList(ShortCourseLists, prodi) == ShortCourseLists[prodi]
    ensures prodi !in ShortCourseLists ==> CourseList(ShortCourseLists, prodi) == ShortCourseLists["Default"]
    ensures |CourseList(ShortCourseLists, prodi)| == 4
  {
  }

  /** The same for the academic generator's lists, with eight courses each. */
  lemma LongCourseList(prodi: string)
    ensures prodi in LongCourseLists ==> CourseList(LongCourseLists, prodi) == LongCourseLists[prodi]
    ensures prodi !in LongCourseLists ==> CourseList(LongCourseLists, prodi) == LongCourseLists["Default"]
    ensures |CourseList(LongCourseLists, prodi)| == 8
  {
  }

  /** Number of programmes of the first `n` faculties. */
  function ProgrammesBefore(n: nat): nat
    requires n <= |Faculties|
  {
    if n == 0 then 0 else ProgrammesBefore(n - 1) + |Programmes(n - 1)|
  }

  /** `sum(len(prodi_list) for prodi_list in prodi_dict.values())`: the
      catalog has 16 study programmes. */
  function TotalProgrammes(): (total: nat)
    ensures total == 16
  {
    assert ProgrammesBefore(1) == 5;
    assert ProgrammesBefore(2) == 9;
    assert ProgrammesBefore(3) == 12;
    assert ProgrammesBefore(4) == 14;
    ProgrammesBefore(|Faculties|)
  }

  /** The five faculty names are pairwise different, and they are exactly
      the keys of `prodi_dict`. */
  lemma FacultiesDistinct()
    ensures forall i, j :: 0 <= i < j < |Faculties| ==> Faculties[i] != Faculties[j]
    ensures forall f :: f in ProdiDict <==> f in Faculties
  {
  }
}
