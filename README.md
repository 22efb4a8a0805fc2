# Academic datamart generator and Vanna-style indexer, modelled in Dafny

This project models the core of `vanna_trainer`, a Python system that
fills a PostgreSQL "datamart" of fifteen tables with synthetic
university data and then indexes descriptive texts into a Qdrant vector
collection for a text-to-SQL assistant.

What is modelled:

- **Row generators.** There are five domain generators: students (`mahasiswa`),
  lecturers (`dosen`), courses and grades (`akademik`), finance (`keuangan`)
  and the institution (`institusi`). Each `generate_*` method is a
  class method on a `Datamart` object with one `seq` field per table. Its
  loop is a builder method proved equal to a specification function. The
  properties are proved about that function: row counts, the derived-field
  arithmetic (attendance parts add to 14, outstanding = billed - paid,
  grade buckets add to the class size, net income = revenue - cost),
  identifier shape and distinctness, the round-robin link of child rows
  to their parents, and the fixed catalog of 5 faculties and 16
  programmes.
- **The orchestrator** `AcademicDataGenerator`. This covers the PostgreSQL
  connection URL built from the environment, the order of the five domains,
  and the summary that assigns table `i` to collection `i / 3` and keeps
  running totals.
- **The indexer** `AcademicVannaTrainer`. The vector store is a map from
  collection names to collections, and a collection is a map from point
  ids to points. Each text is stored under the md5 digest of its content
  string. An empty embedding short-circuits the add. The add methods'
  failures come back as the strings the source returns. The smoke test `test_query` passes for
  every query.
- **Two trainers**, `KeuanganTrainer` and `InstitusiTrainer`. Each first
  appends its own batch of rows, then indexes texts in a fixed order.

Every random or Faker draw is a parameter whose range is a precondition.
Every answer from the database, the embedding service or the vector
server is a parameter too: a `Result` for a read, a `reachable` flag for
the server, and a count `acceptedWrites` of the `to_sql` calls that go
through before one raises. md5 is a function value held by the trainer.
`datetime.now()` is an integer day number `today`.

Two places where the code and the documented intent differ are modelled
as the code does them:

- `KeuanganTrainer.train` calls `add_schema_info` with three arguments,
  but the method takes two, and its documentation step calls
  `add_documentation`, which the indexer does not define. Both errors come
  from a model of how Python dispatches such a call (`Invoke`): an attribute
  lookup, then an argument count. The TypeError leaves `train`, so the
  financial documentation and sample questions are never indexed. The
  intent was to run all four steps in order.
- The KPI rows of the financial trainer draw the net income independently
  of revenue and cost.

## Model

| member | source | states |
|---|---|---|
| Catalog.Programmes | generators/mahasiswa_generator.py:22-29 | the programme list of each of the five faculties is its `prodi_dict` entry and has at least two programmes |
| Catalog.ShortCourseList | generators/mahasiswa_generator.py:31-38 | `mata_kuliah_list.get(prodi, Default)`: the programme's own list when it has one, the Default list otherwise; four courses either way |
| Catalog.LongCourseList | generators/akademik_generator.py:31-45 | the academic generator's lookup: own list or Default, eight courses either way |
| Catalog.TotalProgrammes | generators/institusi_generator.py:125 | the programmes of all faculties add up to 16 |
| Catalog.FacultiesDistinct | generators/mahasiswa_generator.py:14-29 | the five faculty names are pairwise different and are exactly the keys of `prodi_dict` |
| Digits.DecimalValue | generators/mahasiswa_generator.py:51 | reading back the decimal spelling of `n` gives `n` |
| Digits.DecimalWidth | generators/mahasiswa_generator.py:51 | a number with `k` decimal digits is spelt with `k` characters |
| Digits.ZeroPadValue | generators/mahasiswa_generator.py:51 | the zero-padded spelling `{n:04d}` still denotes `n` |
| Digits.ZeroPadInjective | generators/mahasiswa_generator.py:51 | two different numbers never share a zero-padded spelling |
| Digits.ZeroPadWidth | generators/mahasiswa_generator.py:51 | a number below 10^w is padded to exactly `w` characters |
| Datamart.SampleRowsFromTable | generators/mahasiswa_generator.py:76-78 | every row a `SELECT ... LIMIT n` returns is a row of the table; the result is empty only when the table is empty or the limit is 0 |
| Datamart.FullReadIsPermutation | generators/dosen_generator.py:118 | a read without LIMIT returns every row of the table exactly once |
| Mahasiswa.BuildPerformanceRows | generators/mahasiswa_generator.py:44-63 | the loop's `data` is exactly the batch `PerformanceRows(count, draws)`: one row per index, in order |
| Mahasiswa.PerformanceRowsFacts | generators/mahasiswa_generator.py:45-62 | a batch has `count` rows; each programme belongs to its row's faculty; status is Aktif, Cuti or Lulus, never DO; intake 2020..2024, semester 1..8, ipk 2.0..4.0 |
| Mahasiswa.NimSuffix | generators/mahasiswa_generator.py:51 | a nim is the intake year and two digits (six characters) followed by the 4-digit zero-padded row number |
| Mahasiswa.NimShape | generators/mahasiswa_generator.py:51 | with at most 9999 rows every nim has exactly 10 characters and ends in the padded row number `i + 1` |
| Mahasiswa.NimsDistinct | generators/mahasiswa_generator.py:45-51 | the nims of one batch are pairwise different whatever the random draws |
| Mahasiswa.FallbackNimParts | generators/mahasiswa_generator.py:82 | a fabricated nim has 9 characters: "202", `i // 50`, the 2-digit `i % 50 + 1`, then "001" |
| Mahasiswa.FallbackNimsDistinct | generators/mahasiswa_generator.py:82 | the 200 fabricated nims are pairwise different |
| Mahasiswa.FallbackProgrammeMayMismatch | generators/mahasiswa_generator.py:84-85 | the fabricated programme comes from an independently drawn faculty, so a row can pair Fakultas Teknik with Manajemen |
| Mahasiswa.StudentParents | generators/mahasiswa_generator.py:75-86 | when the LIMIT 200 read raises, the 200 fabricated students are used instead |
| Mahasiswa.BuildAttendanceRows | generators/mahasiswa_generator.py:88-114 | the loop's `data` is exactly `AttendanceRows`: row `i` for student `i mod n`, nothing at all when no student is available |
| Mahasiswa.AttendanceArithmetic | generators/mahasiswa_generator.py:95-112 | in every row hadir + izin + alpha == 14 == total_pertemuan, the percentage is hadir / 14 * 100, hadir 8..14, izin 0..3, alpha -3..6 |
| Mahasiswa.NegativeAbsence | generators/mahasiswa_generator.py:95-97 | alpha can be negative: 14 present and 3 excused give alpha == -3 |
| Mahasiswa.AttendanceLinkage | generators/mahasiswa_generator.py:89-104 | `count` rows when there are students (none otherwise); row `i` copies nim, name, faculty and programme of student `i mod n` |
| Mahasiswa.BuildFinanceRows | generators/mahasiswa_generator.py:138-166 | the loop's `data` is exactly `FinanceRows`: row `i` bills student `i mod n`, nothing when no student is available |
| Mahasiswa.FinanceLinkage | generators/mahasiswa_generator.py:139-141 | `count` rows when there are students (none otherwise); row `i` copies nim, name, faculty and programme of student `i mod n` |
| Mahasiswa.PartialPaymentBounds | generators/mahasiswa_generator.py:148 | a bill times a fraction in 0.3..0.8 lies between 30% and 80% of the bill |
| Mahasiswa.FinanceRowRules | generators/mahasiswa_generator.py:142-165 | one finance row keeps the payment-status rules: Lunas paid in full with a date, Menunggak nothing paid and no date, Belum Lunas 30%..80% paid; outstanding = bill - paid |
| Mahasiswa.FinanceStatusRules | generators/mahasiswa_generator.py:138-166 | every row of a finance batch keeps the payment-status rules |
| Mahasiswa.ChildrenReferenceStudents | generators/mahasiswa_generator.py:75-104 | when the read succeeds, every attendance row names a student present in student_performance |
| Mahasiswa.GeneratedPerformance | generators/mahasiswa_generator.py:173-175 | after generate_all the performance table keeps its old rows as a prefix and grows by exactly 500; the new rows have pairwise different NIMs, a programme of their faculty and a status other than DO |
| Mahasiswa.MahasiswaGenerator.GenerateStudentPerformance | generators/mahasiswa_generator.py:40-68 | appends exactly the batch of `count` performance rows to student_performance and changes nothing else |
| Mahasiswa.MahasiswaGenerator.GenerateStudentAttendance | generators/mahasiswa_generator.py:70-119 | appends the attendance batch built from the read students (or the fallback) to student_attendance |
| Mahasiswa.MahasiswaGenerator.GenerateStudentFinance | generators/mahasiswa_generator.py:121-171 | appends the finance batch built from the read students (or the fallback) to student_finance |
| Mahasiswa.MahasiswaGenerator.GenerateAll | generators/mahasiswa_generator.py:173-177 | the three student tables become `Generated(old tables)`: 500 performance, then 800 attendance and 400 finance rows in that order |
| Dosen.BuildProfileRows | generators/dosen_generator.py:44-63 | the loop's `data` is exactly the batch `ProfileRows(count, draws)`, one row per index in order |
| Dosen.ProfileRowsFacts | generators/dosen_generator.py:45-62 | a batch has `count` rows; every lecturer is active, carries 12..24 credits, holds S2 or S3, and teaches in a programme of their faculty |
| Dosen.NipSuffix | generators/dosen_generator.py:50 | a NIP is "NIP", year, month and day (11 characters), then the 3-digit zero-padded row number |
| Dosen.NipShape | generators/dosen_generator.py:50 | with at most 999 lecturers every NIP has 14 characters and ends in the padded row number |
| Dosen.NipsDistinct | generators/dosen_generator.py:45-50 | the NIPs of one batch are pairwise different whatever the draws |
| Dosen.FallbackNipSuffix | generators/dosen_generator.py:80 | a fabricated NIP has 14 characters and ends in the padded index `i + 1` |
| Dosen.FallbackNipsDistinct | generators/dosen_generator.py:80 | the fabricated NIPs (50 for teaching, 150 for activity) are pairwise different |
| Dosen.FallbackLecturers | generators/dosen_generator.py:79-84 | the teaching fallback fabricates exactly 50 lecturers |
| Dosen.FallbackLecturerIds | generators/dosen_generator.py:121-125 | the activity fallback fabricates exactly 150 lecturers |
| Dosen.TeachingParents | generators/dosen_generator.py:74-84 | when the LIMIT 50 read raises, the 50 fabricated lecturers are used |
| Dosen.BuildTeachingRows | generators/dosen_generator.py:86-106 | the loop's `data` is exactly `TeachingRows`: row `i` for lecturer `i mod n`, nothing when there is no lecturer |
| Dosen.TeachingLinkage | generators/dosen_generator.py:87-100 | `count` rows when there are lecturers; row `i` copies the identity of lecturer `i mod n`, its course comes from that lecturer's programme list (or Default), 15..45 students |
| Dosen.TeachingRowFacts | generators/dosen_generator.py:89-100 | one teaching row carries its lecturer's nip, name and faculty, a course of the lecturer's programme, and 15..45 students |
| Dosen.TeachingReferencesLecturers | generators/dosen_generator.py:74-89 | when the read succeeds, teaching rows cycle through at most 50 lecturers that are all in lecturer_profile |
| Dosen.ActivityParents | generators/dosen_generator.py:117-125 | when the full read raises, the 150 fabricated lecturers are used |
| Dosen.BuildActivityRows | generators/dosen_generator.py:127-140 | the `iterrows()` loop's `data` is exactly `ActivityRows`: one row per lecturer, in order |
| Dosen.ActivityCoversEveryLecturer | generators/dosen_generator.py:117-140 | when the full read succeeds, the batch has one row per profile row, the identities are a permutation of the profile table's, and every lecturer has 1..4 community-service activities |
| Dosen.DosenGenerator.GenerateLecturerProfile | generators/dosen_generator.py:40-68 | appends exactly the profile batch to lecturer_profile and changes nothing else |
| Dosen.DosenGenerator.GenerateLecturerTeaching | generators/dosen_generator.py:70-111 | appends the teaching batch built from the sampled lecturers (or the fallback) to lecturer_teaching |
| Dosen.DosenGenerator.GenerateLecturerActivity | generators/dosen_generator.py:113-145 | appends one activity row per lecturer read (or fabricated); `count` plays no part |
| Dosen.DosenGenerator.GenerateAll | generators/dosen_generator.py:147-151 | the three lecturer tables become `Generated(old tables)`: 150 profiles, then 300 teaching rows, then the activity rows |
| Akademik.BuildCourseRows | generators/akademik_generator.py:51-71 | the loop's `data` is exactly the batch `CourseRows(count, draws)`, one row per index in order |
| Akademik.CourseRowsFacts | generators/akademik_generator.py:52-70 | a batch has `count` rows; each course lies in a programme of its faculty and is named from that programme's list (or Default); 2, 3 or 4 credits, semester 1..8, 15..50 participants |
| Akademik.FallbackCourses | generators/akademik_generator.py:89-101 | the fallback fabricates exactly 100 courses |
| Akademik.BuildFallbackCourses | generators/akademik_generator.py:89-100 | the loop's `courses_data` is exactly `FallbackCourses(draws)` |
| Akademik.FallbackCoursesFacts | generators/akademik_generator.py:90-100 | the fabricated codes MK1000..MK1099 are pairwise different; every fabricated course lies in a programme of its faculty and has 15..50 participants |
| Akademik.CourseParents | generators/akademik_generator.py:82-101 | when the LIMIT 100 read raises, the 100 fabricated courses are used |
| Akademik.BuildGradeRows | generators/akademik_generator.py:103-137 | the loop's `data` is exactly `GradeRows`: row `i` for course `i mod n`, nothing when there is no course |
| Akademik.AssignedAtMostTotal | generators/akademik_generator.py:110-118 | the six drawn buckets, each at most its truncated share of the class, add up to at most the class size |
| Akademik.GradeBucketsSumToTotal | generators/akademik_generator.py:104-134 | `count` rows when there are courses; row `i` copies course `i mod n`; all seven buckets are non-negative, E is the remainder, and the buckets add up exactly to total_mahasiswa |
| Akademik.AppendPeriodTrends | generators/akademik_generator.py:155-180 | the innermost loop appends the three sampled metrics of one period to `data` |
| Akademik.AppendProgrammeTrends | generators/akademik_generator.py:154-180 | the period loop appends one programme's rows, period by period |
| Akademik.AppendFacultyTrends | generators/akademik_generator.py:153-180 | the programme loop appends one faculty's rows, programme by programme |
| Akademik.BuildTrendRows | generators/akademik_generator.py:148-180 | the four nested loops build exactly `TrendRows(draws)` |
| Akademik.ProgrammeTrendCount | generators/akademik_generator.py:154-155 | each programme contributes 12 rows: three metrics in each of four periods |
| Akademik.FacultyTrendCount | generators/akademik_generator.py:153-155 | a faculty contributes 12 rows per programme |
| Akademik.TrendCount | generators/akademik_generator.py:144-185 | the table always grows by 192 rows (16 programmes x 12), whatever `count` is |
| Akademik.PeriodMetricsDistinct | generators/akademik_generator.py:155 | `random.sample` gives three different metrics within one period |
| Akademik.ProgrammeTrendsWellFormed | generators/akademik_generator.py:154-180 | every row of one programme is well formed (see TrendRowsWellFormed) |
| Akademik.TrendRowsWellFormed | generators/akademik_generator.py:152-180 | every trend row names a programme of its faculty, one of the four periods and five metrics, carries that metric's unit and a value from its range, a change in -10..15, and the description "Trend <metric> untuk <prodi> periode <periode>" |
| Akademik.AkademikGenerator.GenerateCoursePerformance | generators/akademik_generator.py:47-76 | appends exactly the course batch to course_performance and changes nothing else |
| Akademik.AkademikGenerator.GenerateGradeDistribution | generators/akademik_generator.py:78-142 | appends the grade batch built from the sampled courses (or the fallback) to grade_distribution |
| Akademik.AkademikGenerator.GenerateAcademicTrends | generators/akademik_generator.py:144-185 | appends `TrendRows(draws)` to academic_trends; `count` plays no part |
| Akademik.AkademikGenerator.GenerateAll | generators/akademik_generator.py:187-191 | the three academic tables become `Generated(old tables)`: 200 courses, then 150 grade rows, then the trends |
| Keuangan.AppendProgrammeRevenue | generators/keuangan_generator.py:38-54 | the period loop appends one programme's two revenue rows |
| Keuangan.AppendFacultyRevenue | generators/keuangan_generator.py:37-54 | the programme loop appends one faculty's revenue rows, programme by programme |
| Keuangan.BuildRevenueRows | generators/keuangan_generator.py:35-54 | the three nested loops build exactly `RevenueRows(draws)` |
| Keuangan.FacultyRevenueCount | generators/keuangan_generator.py:37-38 | a faculty contributes two rows per programme |
| Keuangan.RevenueCount | generators/keuangan_generator.py:31-59 | the table always grows by 32 rows (16 programmes x 2 periods), whatever `count` is |
| Keuangan.CollectedShare | generators/keuangan_generator.py:40-41 | at a collection rate of 75..95 percent, 75% to 95% of the bill is collected |
| Keuangan.RevenueRowBalances | generators/keuangan_generator.py:39-52 | in one revenue row collected + outstanding == bill, 5%..25% of the bill is outstanding, and the rate is 75..95 |
| Keuangan.RevenueRowWellFormed | generators/keuangan_generator.py:43-53 | one revenue row names a programme of its faculty, a known period, income type SPP, and balances |
| Keuangan.ProgrammeRevenueWellFormed | generators/keuangan_generator.py:38-54 | both rows of one programme are well formed |
| Keuangan.RevenueRowsWellFormed | generators/keuangan_generator.py:36-54 | every revenue row names a programme of its own faculty and balances: collected + outstanding == bill |
| Keuangan.AppendMethodPayments | generators/keuangan_generator.py:70-81 | the period loop appends one payment method's two rows |
| Keuangan.AppendFacultyPayments | generators/keuangan_generator.py:69-81 | the method loop appends one faculty's ten rows, method by method |
| Keuangan.BuildPaymentRows | generators/keuangan_generator.py:65-81 | the three nested loops build exactly `PaymentRows(draws)` |
| Keuangan.PaymentGrid | generators/keuangan_generator.py:66-81 | 50 rows; row `10 f + 2 m + k` is the one for faculty `f`, method `m` and period `k` with that cell's draws, so every combination appears exactly once |
| Keuangan.CostRangeNonEmpty | generators/keuangan_generator.py:95-96 | for every drawn revenue, the cost range 800000000..int(revenue * 0.8) is non-empty, so `randint` never raises |
| Keuangan.BuildKpiRows | generators/keuangan_generator.py:92-110 | the two nested loops build exactly `KpiRows(draws)` |
| Keuangan.KpiRowFacts | generators/keuangan_generator.py:95-108 | one KPI row: net income == revenue - cost, cost at most 80% of revenue, net income at least a fifth of revenue and at least 200000000 |
| Keuangan.KpiGrid | generators/keuangan_generator.py:93-110 | 10 rows; row `5 k + f` is the one for period `k` and faculty `f` |
| Keuangan.KpiRowsProfitable | generators/keuangan_generator.py:93-110 | every KPI row of the batch satisfies the facts of KpiRowFacts: no faculty makes a loss |
| Keuangan.KeuanganGenerator.GenerateRevenueSummary | generators/keuangan_generator.py:31-59 | appends `RevenueRows(draws)` to revenue_summary; `count` plays no part |
| Keuangan.KeuanganGenerator.GeneratePaymentAnalysis | generators/keuangan_generator.py:61-86 | appends `PaymentRows(draws)` to payment_analysis; `count` plays no part |
| Keuangan.KeuanganGenerator.GenerateFinancialKpi | generators/keuangan_generator.py:88-115 | appends `KpiRows(draws)` to financial_kpi; `count` plays no part |
| Keuangan.KeuanganGenerator.GenerateAll | generators/keuangan_generator.py:117-121 | the three financial tables become `Generated(old tables)`: revenue, payment, then KPI rows |
| Institusi.ActiveStudents | generators/institusi_generator.py:41-44 | the rows the WHERE clause selects are exactly the table's active students (of the faculty, when one is given); no more rows than the table |
| Institusi.ActiveLecturerCount | generators/institusi_generator.py:49-52 | the COUNT(*) of active lecturers is at most the number of profile rows |
| Institusi.SumIpkBounds | generators/institusi_generator.py:57-62 | a sum of IPKs on the 2.0..4.0 scale lies between 2 and 4 times the row count |
| Institusi.QuotientBounds | generators/institusi_generator.py:57-62 | a sum between 2n and 4n divided by n lies in 2.0..4.0 |
| Institusi.AverageIpkInRange | generators/institusi_generator.py:57-62 | AVG(ipk) is NULL exactly when no student qualifies, and otherwise lies in 2.0..4.0 when every IPK does |
| Institusi.FacultyCountAtMostTotal | generators/institusi_generator.py:41-102 | a faculty's active-student count never exceeds the university's |
| Institusi.FacultyIndex | generators/institusi_generator.py:38-76 | the position of a faculty in `fakultas_list` names that faculty, and is 5 exactly when the name is not in the list |
| Institusi.StatsAfterRows | generators/institusi_generator.py:38-85 | after the first `n` faculties the table keeps its length and each row is what the UPDATEs so far make of it |
| Institusi.FacultyStatisticsOutcome | generators/institusi_generator.py:33-87 | no row is added or removed and descriptive columns never change; a faculty whose statements succeed gets its active-student and active-lecturer counts, programme count, average IPK (or the drawn fallback) 10%..30% graduates and the drawn attendance rate in 80..95; failed or unknown faculties are untouched |
| Institusi.BuildUniversityRows | generators/institusi_generator.py:93-140 | the loop's `data` is exactly `UniversityRows`: one row per academic year, in order |
| Institusi.RatioRestoresCount | generators/institusi_generator.py:136 | the student/lecturer ratio times `max(total_dosen, 1)` gives back the student count (before rounding) |
| Institusi.UniversityRowFacts | generators/institusi_generator.py:94-139 | a row is labelled with its own academic year, has 16 programmes, 5 faculties and accreditation B; the ratio restores the student count; the totals are the active counts when the reads succeed and drawn in 3000..5000 and 200..400 otherwise |
| Institusi.UniversityRowsFacts | generators/institusi_generator.py:93-140 | two rows, for 2023/2024 and 2024/2025; when both reads succeed they carry the same student total and ratio |
| Institusi.BuildAccreditationRows | generators/institusi_generator.py:151-207 | the two loops and the final append build exactly `AccreditationRows(today, ...)` |
| Institusi.AccreditationFacts | generators/institusi_generator.py:151-207 | 22 rows: 16 programme rows naming a programme of their faculty, 5 faculty rows in list order, and the institution row last; every accreditation date is 1..3 years back and every expiry 1..5 years ahead; every target is A or Unggul |
| Institusi.InstitusiGenerator.GenerateFacultyStatistics | generators/institusi_generator.py:33-87 | faculty_statistics becomes `StatsAfter(old table, ..., 5)`: the UPDATE of every faculty whose statements succeed |
| Institusi.InstitusiGenerator.GenerateUniversityPerformance | generators/institusi_generator.py:89-145 | appends the two university rows to university_performance |
| Institusi.InstitusiGenerator.GenerateAccreditationStatus | generators/institusi_generator.py:147-212 | appends the 22 accreditation rows to accreditation_status |
| Institusi.InstitusiGenerator.GenerateAll | generators/institusi_generator.py:214-218 | the three institutional tables become `Generated(old tables, ...)`: statistics updated first, then university and accreditation rows appended |
| DataGenerator.FormatUrl | data_generator.py:34 | the URL is `postgresql://`, the user, `:`, the password, `@`, the host, `:`, the port, `/`, then the database name, each part at its computed position |
| DataGenerator.DefaultConnectionUrl | data_generator.py:28-34 | with no variable set the URL uses postgres / academic123 / postgres / 5432 / academic_datamart |
| DataGenerator.ConnectionUrlUsesEnvironment | data_generator.py:28-34 | the URL starts with the scheme; the database name ends it and comes from POSTGRES_DB when set (academic_datamart otherwise); the user follows the scheme and comes from POSTGRES_USER when set |
| DataGenerator.CollectionIndex | data_generator.py:97-106 | the `if i < 3 ... else` chain sends table `i` to collection `i / 3`, always one of the five |
| DataGenerator.TableSizes | data_generator.py:68-92 | one COUNT(*) per table of `all_tables`, fifteen in all |
| DataGenerator.CollectionsSumToTotal | data_generator.py:90-108 | at every point of the loop the five collection counts add up to the running total |
| DataGenerator.CollectionWindow | data_generator.py:90-108 | collection `c` has received exactly the counted tables 3c, 3c+1, 3c+2 seen so far |
| DataGenerator.RecordsAtMostSizes | data_generator.py:90-113 | a failed count never adds, so the total is at most the sum of table sizes, and equals it when no query fails |
| DataGenerator.AcademicDataGenerator.constructor | data_generator.py:16-24 | all five generators share the one engine (datamart) |
| DataGenerator.AcademicDataGenerator.GenerateAllDatamarts | data_generator.py:37-62 | each domain's three tables become that domain's `Generated(...)`, in the order students, lecturers, academics, finance, institution; the institution step sees the students just added |
| DataGenerator.AcademicDataGenerator.GetDataSummary | data_generator.py:64-121 | each collection total is the sum of its three tables' counts (zero for a failed query); the five add up to the total; the total is at most the rows in the datamart and equals it when nothing fails |
| DataGenerator.BatchSizes | data_generator.py:37-62 | in a full run the batches hold 500, 800, 400, 150, 300, one per lecturer read (or 150), 200, 150, 192, 32, 50, 10 and 22 rows |
| VannaSetup.QdrantStore.constructor | vanna_setup.py:31-35 | the server model starts with the given collections and reachability |
| VannaSetup.WithCollection | vanna_setup.py:48-58 | a missing collection is added with 768 dimensions, cosine distance and no points; every existing collection, including one of the same name, is kept unchanged |
| VannaSetup.CreateCollectionIdempotent | vanna_setup.py:51-61 | creating the collection a second time changes nothing |
| VannaSetup.Upserted | vanna_setup.py:111-125 | the upsert stores the point under its id (replacing any point of that id), keeps every other point and collection, and keeps the collection's configuration |
| VannaSetup.LineEnd | vanna_setup.py:104 | the first line break of a string, or its length when there is none |
| VannaSetup.LineEndOfLine | vanna_setup.py:104 | a line without a break followed by a break ends exactly at the line's length |
| VannaSetup.QuestionContentRoundTrip | vanna_setup.py:104 | the question (without a line break) and its SQL are recovered from the content string `Question: <q>\nSQL: <sql>` |
| VannaSetup.SchemaContentRoundTrip | vanna_setup.py:137 | the schema name (without a line break) and its description are recovered from `Schema: <name>\n<description>` |
| VannaSetup.QuestionContentInjective | vanna_setup.py:104-105 | two pairs whose questions have no line break share a content string, and so a point id, only when they are the same pair |
| VannaSetup.QuestionContentCollision | vanna_setup.py:104-105 | with a line break in the question, two different pairs produce the same content string and so the same point id |
| VannaSetup.ContentKindsDiffer | vanna_setup.py:104-137 | a question's content never equals a schema's content |
| VannaSetup.Embedding | vanna_setup.py:88-99 | the embedding is empty exactly when the service raised or returned an empty vector |
| VannaSetup.AfterAdd | vanna_setup.py:101-165 | one add: collection names and other collections never change; with no embedding, an unreachable server or a missing collection nothing changes; otherwise the point (embedding, payload) is stored under md5 of the content, replacing any point with that id |
| VannaSetup.AddReply | vanna_setup.py:101-165 | the reply is "Failed to generate embedding" with no embedding, "Error" when the upsert raises, and the point id (md5 of the content) on success |
| VannaSetup.AddAgainReplaces | vanna_setup.py:105-125 | adding the same entry again leaves the collection as if only the later add with an embedding had run: one point per content string |
| VannaSetup.AddIdempotent | vanna_setup.py:105-125 | repeating an add with the same answer changes nothing and returns the same reply |
| VannaSetup.AddPointCount | vanna_setup.py:111-125 | a successful add grows the collection by one point exactly when its id is new |
| VannaSetup.AddsKeepPoints | vanna_setup.py:111-125 | a sequence of adds never removes a collection or a point id and never changes a configuration |
| VannaSetup.AddsStoreEmbedded | vanna_setup.py:101-165 | after a sequence of adds on a reachable server holding the collection, every entry that got an embedding has a point under md5 of its content; with no embedding at all nothing changes |
| VannaSetup.RunSql | vanna_setup.py:167-174 | the frame the database returns, or an empty frame when the query raises |
| VannaSetup.TestQuery | vanna_setup.py:176-189 | the smoke test passes for every query, one that raised included, because an empty frame has length 0 >= 0 |
| VannaSetup.StatsOf | vanna_setup.py:191-203 | the statistics are missing (the empty dict) exactly when the server does not answer or the collection does not exist; otherwise they name the collection and count its points |
| VannaSetup.StatsOfCreated | vanna_setup.py:191-200 | a freshly created collection reports 0 points, 768 dimensions and cosine distance |
| VannaSetup.StatsTrackAdds | vanna_setup.py:111-125 | the reported point count grows by one for each successful add of a new id |
| VannaSetup.AcademicVannaTrainer.constructor | vanna_setup.py:17-21 | the trainer reads GEMINI_API_KEY, QDRANT_URL (default http://qdrant:6333), QDRANT_API_KEY (default qdrant123) and the PostgreSQL URL from the environment |
| VannaSetup.AcademicVannaTrainer.Create | vanna_setup.py:17-43 | a missing or empty API key fails first and touches nothing; an unreachable server fails next; otherwise the collection is created if absent and construction succeeds exactly when the database answers (a database failure leaves the collection created) |
| VannaSetup.AcademicVannaTrainer.CreateCollection | vanna_setup.py:45-65 | on a reachable server the store becomes `WithCollection(old, name)`; an unreachable one makes it fail and changes nothing |
| VannaSetup.AcademicVannaTrainer.Add | vanna_setup.py:101-165 | the reply is `AddReply` and the store becomes `AfterAdd` of the old store |
| VannaSetup.AcademicVannaTrainer.AddQuestionSql | vanna_setup.py:101-132 | adds the question entry (payload question, sql, type question_sql, content): reply and new store as AddReply/AfterAdd state |
| VannaSetup.AcademicVannaTrainer.AddSchemaInfo | vanna_setup.py:134-165 | adds the schema entry (payload schema_name, schema_description, type schema, content): reply and new store as AddReply/AfterAdd state |
| VannaSetup.CallErrorCases | vanna_setup.py:101-134 | for the names the trainers call (`add_question_sql`, `add_schema_info`, `add_documentation`), a call `trainer.<name>(*args)` raises before the method body exactly when the name is not a method of the class or the argument count is not the two the adding methods take; the TypeError text starts with the method name, the AttributeError names the attribute |
| VannaSetup.AddMethodCall | vanna_setup.py:101-134 | `add_question_sql` and `add_schema_info` are methods of the class; a call to either goes through exactly with two arguments, and otherwise raises a TypeError whose text starts with the method's name |
| VannaSetup.AddDocumentationUndefined | vanna_setup.py:12-203 | the class defines no `add_documentation`, so any call to it raises the AttributeError |
| VannaSetup.AcademicVannaTrainer.Invoke | vanna_setup.py:101-165 | a call that raises (`CallError`) leaves the store as it was and returns the exception text; a call that goes through is `add_question_sql` or `add_schema_info` on its two arguments, with reply and new store as `AddReply`/`AfterAdd` |
| VannaSetup.AcademicVannaTrainer.GetCollectionStats | vanna_setup.py:191-203 | returns `StatsOf` of the store: nothing exactly when the server does not answer or the collection is missing |
| KeuanganTrainer.BuildKpiRows | trainers/keuangan_trainer.py:106-120 | the two nested loops build exactly `KpiRows(draws)` |
| KeuanganTrainer.KpiRowAt | trainers/keuangan_trainer.py:107-120 | the batch has 10 rows and row `5 k + f` is the one for period `k` and faculty `f` |
| KeuanganTrainer.KpiGrid | trainers/keuangan_trainer.py:106-120 | 10 rows, period by period and faculty by faculty; every net income lies in 200000000..1000000000 and every cost in 800000000..2000000000 |
| KeuanganTrainer.NetIncomeNotDerived | trainers/keuangan_trainer.py:112-118 | unlike the generator's, the trainer's net income is not revenue minus cost: revenue 1e9 with cost 2e9 still reports a net income of 2e8 |
| KeuanganTrainer.GenerationCounts | trainers/keuangan_trainer.py:58-128 | a full generation appends 32 revenue rows that balance, 50 payment rows and 10 KPI rows; a batch whose write fails, and every later batch, leaves its table as it was |
| KeuanganTrainer.KeuanganTrainer.GenerateFinancialData | trainers/keuangan_trainer.py:34-128 | the three tables become `AfterGeneration(old tables, draws, acceptedWrites)`; a write that raises is caught and reported, so the call itself never fails |
| KeuanganTrainer.KeuanganTrainer.TrainDdl | trainers/keuangan_trainer.py:189-191 | loops over the DDL texts calling `add_schema_info("financial_schema", ddl, "ddl")` through `Invoke`: with any text the first call raises the TypeError for four positional arguments and the store is unchanged; with none the step passes |
| KeuanganTrainer.KeuanganTrainer.TrainDocumentation | trainers/keuangan_trainer.py:231-232 | loops over the documents calling `add_documentation(doc)` through `Invoke`: with any document the first call raises the AttributeError for `add_documentation` and the store is unchanged; with none the step passes |
| KeuanganTrainer.KeuanganTrainer.TrainSampleQuestions | trainers/keuangan_trainer.py:234-283 | the store becomes `AfterAdds` of the old store over the question entries, in order; every smoke test passes |
| KeuanganTrainer.KeuanganTrainer.Train | trainers/keuangan_trainer.py:16-32 | the data is generated as `AfterGeneration` states; then the DDL, documentation and question steps run in order and the first exception leaves `train`: with DDL texts the outcome is the TypeError and the store is unchanged, with only documents the AttributeError, and with neither the pairs are added as `AfterAdds` |
| Training.AddSchemas | trainers/institusi_trainer.py:204-205 | `for text in texts: add_schema_info(name, text)`: the store becomes `AfterAdds` of the old store over the schema entries, in order |
| Training.InvokeEach | trainers/keuangan_trainer.py:189-191 | `for text in texts: trainer.<name>(*before, text, *after)`: when the call shape raises, the first text raises it and the store is unchanged (no text: pass); otherwise every text is added in order, as `AfterAdds` over `CallEntries` |
| Training.AddPairs | trainers/institusi_trainer.py:303-305 | each pair is added then smoke-tested: the store becomes `AfterAdds` over the question entries, verdict `i` is the test of pair `i`, and every verdict is a pass |
| Training.BatchesStoreEmbedded | trainers/institusi_trainer.py:204-246 | after one batch of adds and then another on a reachable server, every entry of either batch that got an embedding has its point |
| InstitusiTrainer.BuildUniversityRows | trainers/institusi_trainer.py:58-74 | the loop's `perf_data` is exactly `UniversityRows(draws)` |
| InstitusiTrainer.UniversityRowsFacts | trainers/institusi_trainer.py:58-74 | two rows for 2023/2024 and 2024/2025, each labelled with its own year, 5 faculties, accreditation B and 15..25 programmes |
| InstitusiTrainer.FiguresNotDerived | trainers/institusi_trainer.py:61-69 | unlike the generator's, the trainer's figures need not agree: 15 programmes instead of the catalog's 16, and a ratio that does not restore the student count |
| InstitusiTrainer.GenerationCounts | trainers/institusi_trainer.py:57-136 | a full generation appends 2 university rows and 22 accreditation rows ending with the institution row; a failed write leaves that table and every later one as it was |
| InstitusiTrainer.IndexedKeepsEveryText | trainers/institusi_trainer.py:16-32 | on a server that answers and holds the collection, every DDL text, documentation text and question pair that got an embedding has its point after training |
| InstitusiTrainer.InstitusiTrainer.GenerateInstitutionalData | trainers/institusi_trainer.py:34-136 | the two tables become `AfterGeneration(old tables, today, draws, acceptedWrites)`; a write that raises is caught and reported |
| InstitusiTrainer.InstitusiTrainer.Train | trainers/institusi_trainer.py:16-32 | the data is generated, then DDL, documentation and pairs are indexed in that order: the store becomes `Indexed(old store, ...)` and every smoke test passes |

## Left out

- Database I/O is not modelled as I/O. `to_sql`, `read_sql`, `engine.connect` and the UPDATE text are not modelled. A table is a sequence that is appended to, or updated row by row for faculty_statistics. A read is a `Result` parameter constrained to be a sample of the table.
- Random draws are not modelled as distributions. `random` and Faker become parameters with range preconditions; the weighting of the choices (three 'Aktif' out of five, say) is not modelled.
- Floating-point arithmetic is not modelled: there is no rounding to two decimals. `uniform` draws are exact reals, and `int(t * p)` is an exact floor. Reals are used only where the relation is exact.
- md5, the Gemini embedding call, `genai.configure` and the `GenerativeModel` are abstract. md5 is an uninterpreted function, so no collision-freedom is claimed. An embedding is the service's answer.
- The vector size of an upserted point is not checked against the collection's 768 dimensions. The model stores whatever vector the service returned.
- Printing and logging are left out. The smoke-test verdicts are returned as a sequence of booleans instead of being printed.
- The clock is not modelled. `datetime.now()` is one day number `today` for all rows; the microseconds between successive calls are not modelled.
- train_main.py is not part of this model. It does orchestration, logging setup, timing and the environment check. That check reads `QDRANT_HOST`, while the indexer reads `QDRANT_URL`.
- The student, lecturer and academic trainers are not part of this model. The lecturer and academic trainers make the same three-argument `add_schema_info` call and the same missing `add_documentation` call as the financial trainer.
- The DDL, documentation and question/SQL texts of the trainers are parameters, not constants. So the counts 3, 3 and 12 for the institutional trainer are not fixed in the model.
- SQL text is not parsed or executed. `run_sql` returns the frame it is given, or an empty frame on failure.
- The COUNT and AVG queries are computed from the datamart state, and a statement that raises becomes a `failed` flag that covers the whole faculty (or the whole university row). A COUNT result always has one row. In faculty_statistics the COUNT fallbacks (`randint(100, 300)`, `randint(20, 60)`) are therefore unreachable, and a statement that raises skips the faculty and leaves its row unchanged; only the AVG fallback is taken, when no row matches. Only university_performance redraws its figures, all three of them, when a query raises.
- Network failures are modelled as failure parameters: a server that does not answer is `reachable == false`, a database that does not answer is `postgresUp == false`, and a failing write is `acceptedWrites`. Timeouts and partial writes inside one `to_sql` are not modelled.
- `KeuanganTrainer.KeuanganTrainer.TrainSampleQuestions` is never reached from `Train` with the trainer's own texts, since the DDL step raises first; it is modelled as a standalone method as well as the last step of `Train`.
- `VannaSetup.AcademicVannaTrainer.Create`: the Qdrant and database failures carry the stand-in texts `QdrantError` and `DatabaseError`, and so does `CreateCollection` for an unreachable server; the source re-raises the client's or SQLAlchemy's own exception, whose text is not modelled.
- `VannaSetup.TooManyArguments`: the TypeError text is the form Python 3.9 and earlier print; later versions prefix the class name. A call with keyword arguments is not modelled.
