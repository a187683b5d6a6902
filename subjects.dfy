/** The catalogue of subjects and fields of work a report can be written
    for, with its lookups: by name, by group, by keyword, and the sorted list
    of groups. `toLowerCase` is a parameter `lower` of the lookups, since
    Unicode case mapping is not modelled. */
module Subjects {
  import opened Types
  import opened JsStrings

  /** One catalogue entry. */
  datatype SubjectItem = SubjectItem(id: nat, name: string, group: string, description: string)

  /** `SUBJECTS_DATA`, in its source order. It is written as three runs of
      18 entries, which keeps indexing into it cheap to verify. */
  const SubjectsData: seq<SubjectItem> := SubjectsFirst + SubjectsSecond + SubjectsThird

  const SubjectsFirst: seq<SubjectItem> := [
    SubjectItem(1, "Bồi dưỡng giáo viên", "Giáo dục - Đào tạo",
      "Các phương pháp, kinh nghiệm trong việc bồi dưỡng chuyên môn, nghiệp vụ cho giáo viên"),
    SubjectItem(2, "Chăm sóc nuôi dưỡng", "Mầm non",
      "Kinh nghiệm chăm sóc, nuôi dưỡng trẻ em tại các cơ sở giáo dục mầm non"),
    SubjectItem(3, "Chủ nhiệm", "Quản lý lớp học",
      "Kinh nghiệm công tác chủ nhiệm lớp, quản lý học sinh, xây dựng tập thể lớp"),
    SubjectItem(4, "Chuyển đổi số", "Công nghệ - Giáo dục",
      "Ứng dụng công nghệ số trong dạy học và quản lý giáo dục"),
    SubjectItem(5, "Cơ bản", "Kỹ thuật",
      "Kiến thức và kỹ năng cơ bản trong lĩnh vực kỹ thuật"),
    SubjectItem(6, "Cơ khí", "Kỹ thuật công nghiệp",
      "Kinh nghiệm giảng dạy và thực hành cơ khí"),
    SubjectItem(7, "Công đoàn", "Tổ chức - Đoàn thể",
      "Hoạt động công đoàn trong trường học, bảo vệ quyền lợi giáo viên"),
    SubjectItem(8, "Công nghệ công nghiệp", "Kỹ thuật - Công nghệ",
      "Giảng dạy và ứng dụng công nghệ công nghiệp"),
    SubjectItem(9, "Công nghệ nông nghiệp", "Nông nghiệp - Công nghệ",
      "Giảng dạy và ứng dụng công nghệ trong nông nghiệp"),
    SubjectItem(10, "Công nghệ thông tin", "CNTT - Giáo dục",
      "Ứng dụng CNTT trong dạy học, quản lý và các hoạt động giáo dục"),
    SubjectItem(11, "Công tác Đoàn, Đội", "Tổ chức - Đoàn thể",
      "Kinh nghiệm tổ chức hoạt động Đoàn Thanh niên, Đội Thiếu niên trong trường học"),
    SubjectItem(12, "Đạo đức", "Giáo dục nhân cách",
      "Giảng dạy môn Đạo đức, giáo dục phẩm chất đạo đức cho học sinh"),
    SubjectItem(13, "Địa lý", "Khoa học xã hội",
      "Phương pháp giảng dạy môn Địa lý hiệu quả"),
    SubjectItem(14, "Điện máy", "Kỹ thuật điện",
      "Kinh nghiệm giảng dạy và thực hành điện máy"),
    SubjectItem(15, "Giáo dục công dân", "Giáo dục nhân cách",
      "Phương pháp giảng dạy môn Giáo dục công dân, giáo dục pháp luật cho học sinh"),
    SubjectItem(16, "Giáo dục địa phương", "Giáo dục - Địa phương",
      "Tích hợp nội dung giáo dục địa phương vào chương trình học"),
    SubjectItem(17, "Giáo dục hướng nghiệp", "Hướng nghiệp",
      "Kinh nghiệm tư vấn, định hướng nghề nghiệp cho học sinh"),
    SubjectItem(18, "Giáo dục Kinh tế và Pháp luật", "Kinh tế - Pháp luật",
      "Giảng dạy kiến thức kinh tế và pháp luật cho học sinh THPT")
  ]

  const SubjectsSecond: seq<SubjectItem> := [
    SubjectItem(19, "Giáo dục mẫu giáo, nhà trẻ", "Mầm non",
      "Phương pháp giáo dục trẻ mầm non, mẫu giáo và nhà trẻ"),
    SubjectItem(20, "Giáo dục nghề nghiệp", "Hướng nghiệp - Dạy nghề",
      "Kinh nghiệm giảng dạy và đào tạo nghề nghiệp cho học sinh"),
    SubjectItem(21, "Giáo dục quốc phòng và an ninh", "Quốc phòng - An ninh",
      "Giảng dạy môn Giáo dục quốc phòng và an ninh"),
    SubjectItem(22, "Giáo dục tập thể", "Giáo dục nhân cách",
      "Xây dựng tinh thần tập thể, kỹ năng làm việc nhóm cho học sinh"),
    SubjectItem(23, "Giáo dục thể chất", "Thể dục - Thể thao",
      "Phương pháp giảng dạy thể dục, rèn luyện sức khỏe cho học sinh"),
    SubjectItem(24, "Giáo dục thường xuyên", "Giáo dục - Đào tạo",
      "Kinh nghiệm giảng dạy và quản lý trong hệ thống giáo dục thường xuyên"),
    SubjectItem(25, "Giáo dục tiểu học", "Tiểu học",
      "Phương pháp giảng dạy và quản lý học sinh bậc tiểu học"),
    SubjectItem(26, "Hoá học", "Khoa học tự nhiên",
      "Phương pháp giảng dạy môn Hóa học, thí nghiệm thực hành"),
    SubjectItem(27, "Hoạt động trải nghiệm hướng nghiệp", "Hướng nghiệp - Trải nghiệm",
      "Tổ chức các hoạt động trải nghiệm thực tế gắn với định hướng nghề nghiệp"),
    SubjectItem(28, "Kế toán", "Kinh tế - Tài chính",
      "Giảng dạy kế toán, quản lý tài chính trong trường học"),
    SubjectItem(29, "Khoa học", "Khoa học tự nhiên",
      "Phương pháp giảng dạy môn Khoa học ở bậc tiểu học"),
    SubjectItem(30, "Kỹ năng sống", "Giáo dục nhân cách",
      "Giáo dục kỹ năng sống, kỹ năng mềm cho học sinh"),
    SubjectItem(31, "Lịch sử", "Khoa học xã hội",
      "Phương pháp giảng dạy môn Lịch sử hiệu quả, sáng tạo"),
    SubjectItem(32, "Mỹ thuật", "Nghệ thuật",
      "Phương pháp giảng dạy môn Mỹ thuật, phát triển năng khiếu thẩm mỹ"),
    SubjectItem(33, "Ngoại ngữ", "Ngôn ngữ",
      "Phương pháp giảng dạy ngoại ngữ (Anh, Pháp, Nhật...) hiệu quả"),
    SubjectItem(34, "Ngữ văn", "Ngôn ngữ - Văn học",
      "Phương pháp giảng dạy môn Ngữ văn, phát triển năng lực đọc viết"),
    SubjectItem(35, "Nhân viên", "Hành chính - Nhân sự",
      "Kinh nghiệm công tác của nhân viên hành chính, y tế, bảo vệ trong trường học"),
    SubjectItem(36, "Phong trào trường học", "Tổ chức - Phong trào",
      "Tổ chức các phong trào thi đua, hoạt động ngoại khóa trong trường học")
  ]

  const SubjectsThird: seq<SubjectItem> := [
    SubjectItem(37, "Phương pháp dạy học", "Sư phạm",
      "Đổi mới phương pháp dạy học tích cực, hiệu quả"),
    SubjectItem(38, "Quản lý", "Quản lý giáo dục",
      "Kinh nghiệm quản lý trường học, quản lý chuyên môn"),
    SubjectItem(39, "Sinh học", "Khoa học tự nhiên",
      "Phương pháp giảng dạy môn Sinh học, thực hành thí nghiệm"),
    SubjectItem(40, "Sức khỏe học đường", "Y tế - Sức khỏe",
      "Chăm sóc sức khỏe học sinh, phòng chống bệnh học đường"),
    SubjectItem(41, "Tâm lý học đường", "Tâm lý - Giáo dục",
      "Hỗ trợ tâm lý học sinh, phòng ngừa và can thiệp các vấn đề tâm lý"),
    SubjectItem(42, "Tham vấn học đường", "Tâm lý - Tư vấn",
      "Kinh nghiệm tư vấn, hỗ trợ học sinh và phụ huynh trong môi trường học đường"),
    SubjectItem(43, "Thanh tra", "Quản lý - Kiểm tra",
      "Kinh nghiệm công tác thanh tra, kiểm tra trong giáo dục"),
    SubjectItem(44, "Thiết bị dạy học", "Cơ sở vật chất",
      "Sử dụng và sáng tạo thiết bị dạy học hiệu quả"),
    SubjectItem(45, "Thủ công", "Nghệ thuật - Kỹ năng",
      "Phương pháp giảng dạy thủ công, rèn luyện kỹ năng khéo léo cho học sinh"),
    SubjectItem(46, "Thư viện", "Hành chính - Thư viện",
      "Quản lý và phát triển thư viện trường học, khuyến đọc"),
    SubjectItem(47, "Tiếng Việt", "Ngôn ngữ",
      "Phương pháp giảng dạy môn Tiếng Việt ở bậc tiểu học"),
    SubjectItem(48, "Tin học", "CNTT - Giáo dục",
      "Phương pháp giảng dạy môn Tin học, lập trình cho học sinh"),
    SubjectItem(49, "Toán", "Khoa học tự nhiên",
      "Phương pháp giảng dạy môn Toán, phát triển tư duy logic"),
    SubjectItem(50, "Tự chọn", "Đa lĩnh vực",
      "Các chủ đề tự chọn theo nhu cầu và điều kiện của nhà trường"),
    SubjectItem(51, "Tự nhiên xã hội", "Khoa học tổng hợp",
      "Phương pháp giảng dạy môn Tự nhiên và Xã hội ở bậc tiểu học"),
    SubjectItem(52, "Văn phòng", "Hành chính",
      "Kinh nghiệm công tác văn phòng, hành chính trong trường học"),
    SubjectItem(53, "Văn thư", "Hành chính",
      "Kinh nghiệm công tác văn thư, lưu trữ hồ sơ trong trường học"),
    SubjectItem(54, "Vật lý", "Khoa học tự nhiên",
      "Phương pháp giảng dạy môn Vật lý, thí nghiệm thực hành")
  ]

  /** The run starting at entry `first` is numbered `first`, `first` + 1, ... */
  predicate NumberedFrom(run: seq<SubjectItem>, first: nat) {
    forall k :: 0 <= k < |run| ==> run[k].id == first + k
  }

  lemma FirstNumbers()
    ensures |SubjectsFirst| == 18 && NumberedFrom(SubjectsFirst, 1)
  {
    forall k | 0 <= k < 18
      ensures SubjectsFirst[k].id == 1 + k
    {
      if k == 0 { }
      else if k == 1 { }
      else if k == 2 { }
      else if k == 3 { }
      else if k == 4 { }
      else if k == 5 { }
      else if k == 6 { }
      else if k == 7 { }
      else if k == 8 { }
      else if k == 9 { }
      else if k == 10 { }
      else if k == 11 { }
      else if k == 12 { }
      else if k == 13 { }
      else if k == 14 { }
      else if k == 15 { }
      else if k == 16 { }
      else if k == 17 { }
    }
  }

  lemma SecondNumbers()
    ensures |SubjectsSecond| == 18 && NumberedFrom(SubjectsSecond, 19)
  {
    forall k | 0 <= k < 18
      ensures SubjectsSecond[k].id == 19 + k
    {
      if k == 0 { }
      else if k == 1 { }
      else if k == 2 { }
      else if k == 3 { }
      else if k == 4 { }
      else if k == 5 { }
      else if k == 6 { }
      else if k == 7 { }
      else if k == 8 { }
      else if k == 9 { }
      else if k == 10 { }
      else if k == 11 { }
      else if k == 12 { }
      else if k == 13 { }
      else if k == 14 { }
      else if k == 15 { }
      else if k == 16 { }
      else if k == 17 { }
    }
  }

  lemma ThirdNumbers()
    ensures |SubjectsThird| == 18 && NumberedFrom(SubjectsThird, 37)
  {
    forall k | 0 <= k < 18
      ensures SubjectsThird[k].id == 37 + k
    {
      if k == 0 { }
      else if k == 1 { }
      else if k == 2 { }
      else if k == 3 { }
      else if k == 4 { }
      else if k == 5 { }
      else if k == 6 { }
      else if k == 7 { }
      else if k == 8 { }
      else if k == 9 { }
      else if k == 10 { }
      else if k == 11 { }
      else if k == 12 { }
      else if k == 13 { }
      else if k == 14 { }
      else if k == 15 { }
      else if k == 16 { }
      else if k == 17 { }
    }
  }

  /** No subject appears twice in the table. */
  lemma TableEntriesDistinct()
    ensures forall i, j :: 0 <= i < j < |SubjectsData| ==> SubjectsData[i] != SubjectsData[j]
  {
    TableIds();
    NumberedEntriesDistinct(SubjectsData);
  }

  /** Entries numbered by their position are pairwise distinct. */
  lemma NumberedEntriesDistinct(table: seq<SubjectItem>)
    requires forall k :: 0 <= k < |table| ==> table[k].id == k + 1
    ensures forall i, j :: 0 <= i < j < |table| ==> table[i] != table[j]
  {
  }

  /** The 54 entries are numbered 1 to 54 in table order. */
  lemma TableIds()
    ensures |SubjectsData| == 54
    ensures forall k :: 0 <= k < |SubjectsData| ==> SubjectsData[k].id == k + 1
  {
    FirstNumbers();
    SecondNumbers();
    ThirdNumbers();
    forall k | 0 <= k < |SubjectsData|
      ensures SubjectsData[k].id == k + 1
    {
      if k < 18 {
        assert SubjectsData[k] == SubjectsFirst[k];
      } else if k < 36 {
        assert SubjectsData[k] == SubjectsSecond[k - 18];
      } else {
        assert SubjectsData[k] == SubjectsThird[k - 36];
      }
    }
  }

  // ---------------------------------------------------------------------
  // `Array.prototype.find` and `Array.prototype.filter`

  /** The index of the first entry at or after `i` that `keep` accepts, or -1. */
  function FirstMatch(items: seq<SubjectItem>, keep: SubjectItem -> bool, i: nat): (k: int)
    requires i <= |items|
    ensures k == -1 || (i <= k < |items| && keep(items[k]))
    ensures forall j :: i <= j < |items| && (k == -1 || j < k) ==> !keep(items[j])
    decreases |items| - i
  {
    if i == |items| then -1
    else if keep(items[i]) then i
    else FirstMatch(items, keep, i + 1)
  }

  /** `items.find(keep)`: the first accepted entry, if any. */
  function Find(items: seq<SubjectItem>, keep: SubjectItem -> bool): (r: Option<SubjectItem>)
    ensures r.None? <==> forall j :: 0 <= j < |items| ==> !keep(items[j])
    ensures r.Some? ==> exists k :: 0 <= k < |items| && items[k] == r.value && keep(r.value)
                                     && forall j :: 0 <= j < k ==> !keep(items[j])
  {
    var k := FirstMatch(items, keep, 0);
    if k == -1 then None else Some(items[k])
  }

  /** `a` is `b` with some entries removed, the rest in the same order. */
  predicate Subsequence(a: seq<SubjectItem>, b: seq<SubjectItem>)
    decreases |b|
  {
    a == [] || (b != [] && ((a[0] == b[0] && Subsequence(a[1..], b[1..])) || Subsequence(a, b[1..])))
  }

  /** `items.filter(keep)`. */
  function Filter(items: seq<SubjectItem>, keep: SubjectItem -> bool): (r: seq<SubjectItem>)
    ensures |r| <= |items|
    ensures forall x :: x in r <==> x in items && keep(x)
    ensures forall x :: multiset(r)[x] == if keep(x) then multiset(items)[x] else 0
  {
    if items == [] then []
    else
      var rest := Filter(items[1..], keep);
      assert items == [items[0]] + items[1..];
      (if keep(items[0]) then [items[0]] else []) + rest
  }

  /** The filter keeps the table order. */
  lemma {:induction false} FilterKeepsOrder(items: seq<SubjectItem>, keep: SubjectItem -> bool)
    ensures Subsequence(Filter(items, keep), items)
  {
    if items != [] {
      FilterKeepsOrder(items[1..], keep);
      var rest := Filter(items[1..], keep);
      if keep(items[0]) {
        assert Filter(items, keep) == [items[0]] + rest;
        assert ([items[0]] + rest)[1..] == rest;
      } else {
        assert Filter(items, keep) == rest;
      }
    }
  }

  lemma {:induction false} SubsequenceOfItself(items: seq<SubjectItem>)
    ensures Subsequence(items, items)
  {
    if items != [] {
      SubsequenceOfItself(items[1..]);
    }
  }

  // ---------------------------------------------------------------------
  // The lookups. Each takes the table it reads as `table`; the app's
  // lookups are these applied to `SubjectsData`.

  /** The case-insensitive name match of both lookups by name. */
  function NameIs(lower: string -> string, name: string): SubjectItem -> bool {
    (s: SubjectItem) => lower(s.name) == lower(name)
  }

  /** The group match of `getSubjectsByGroup` (exact, case-sensitive). */
  function GroupIs(group: string): SubjectItem -> bool {
    (s: SubjectItem) => s.group == group
  }

  /** The keyword match of `searchSubjects`: the lower-cased query occurs in
      the lower-cased name or group. */
  function Mentions(lower: string -> string, query: string): SubjectItem -> bool {
    (s: SubjectItem) => Includes(lower(s.name), lower(query)) || Includes(lower(s.group), lower(query))
  }

  /** `getSubjectInfo`: the first entry whose name equals `name` up to case,
      or nothing. */
  function GetSubjectInfo(table: seq<SubjectItem>, lower: string -> string, name: string): (r: Option<SubjectItem>)
    ensures r.None? <==> forall j :: 0 <= j < |table| ==> lower(table[j].name) != lower(name)
    ensures r.Some? ==> exists k :: 0 <= k < |table| && table[k] == r.value && lower(r.value.name) == lower(name)
                                     && forall j :: 0 <= j < k ==> lower(table[j].name) != lower(name)
  {
    Find(table, NameIs(lower, name))
  }

  /** `getSubjectDescription`: the description of the entry that
      `getSubjectInfo` finds. */
  function GetSubjectDescription(table: seq<SubjectItem>, lower: string -> string, name: string): (r: Option<string>)
    ensures r.Some? <==> GetSubjectInfo(table, lower, name).Some?
    ensures r.Some? ==> r.value == GetSubjectInfo(table, lower, name).value.description
  {
    var found := Find(table, NameIs(lower, name));
    if found.Some? then Some(found.value.description) else None
  }

  /** `getSubjectsByGroup`: the entries of exactly that group, in table order. */
  function GetSubjectsByGroup(table: seq<SubjectItem>, group: string): (r: seq<SubjectItem>)
    ensures forall x :: x in r <==> x in table && x.group == group
    ensures forall x :: multiset(r)[x] == if x.group == group then multiset(table)[x] else 0
    ensures Subsequence(r, table)
  {
    FilterKeepsOrder(table, GroupIs(group));
    Filter(table, GroupIs(group))
  }

  /** `searchSubjects`: a query that is blank after trimming returns the whole
      table; any other query keeps, in table order, the entries whose name or
      group contains it up to case. The untrimmed query is what is searched
      for. */
  function SearchSubjects(table: seq<SubjectItem>, lower: string -> string, query: string): (r: seq<SubjectItem>)
    ensures Trim(query) == [] ==> r == table
    ensures Trim(query) != [] ==>
              forall x :: x in r <==> x in table && (Includes(lower(x.name), lower(query))
                                                    || Includes(lower(x.group), lower(query)))
    ensures Trim(query) != [] ==>
              forall x :: multiset(r)[x] ==
                if Includes(lower(x.name), lower(query)) || Includes(lower(x.group), lower(query))
                then multiset(table)[x] else 0
    ensures Subsequence(r, table)
  {
    if Trim(query) == [] then
      SubsequenceOfItself(table);
      table
    else
      FilterKeepsOrder(table, Mentions(lower, query));
      Filter(table, Mentions(lower, query))
  }

  lemma IncludesItself(s: string)
    ensures Includes(s, s)
  {
    assert OccursAt(s, s, 0);
  }

  /** Searching for a group's name finds every entry of that group. */
  lemma SearchFindsGroup(table: seq<SubjectItem>, lower: string -> string, group: string)
    ensures forall x :: x in GetSubjectsByGroup(table, group) ==> x in SearchSubjects(table, lower, group)
  {
    IncludesItself(lower(group));
    if Trim(group) != [] {
      forall x | x in GetSubjectsByGroup(table, group)
        ensures x in SearchSubjects(table, lower, group)
      {
        assert x.group == group;
      }
    }
  }

  /** Searching for a name that `getSubjectInfo` resolves finds that entry. */
  lemma SearchFindsNamedSubject(table: seq<SubjectItem>, lower: string -> string, name: string)
    requires GetSubjectInfo(table, lower, name).Some?
    ensures GetSubjectInfo(table, lower, name).value in SearchSubjects(table, lower, name)
  {
    IncludesItself(lower(name));
  }

  // ---------------------------------------------------------------------
  // SUBJECT_GROUPS: `[...new Set(groups)].sort()`

  /** The default `sort` order: strings compared character by character,
      a proper prefix first. */
  predicate Below(a: string, b: string)
    decreases |a|
  {
    |b| > 0 && (|a| == 0 || a[0] < b[0] || (a[0] == b[0] && Below(a[1..], b[1..])))
  }

  lemma {:induction false} BelowIrreflexive(a: string)
    ensures !Below(a, a)
    decreases |a|
  {
    if |a| > 0 {
      BelowIrreflexive(a[1..]);
    }
  }

  lemma {:induction false} BelowTransitive(a: string, b: string, c: string)
    requires Below(a, b) && Below(b, c)
    ensures Below(a, c)
    decreases |a|
  {
    if |a| > 0 && a[0] == b[0] && b[0] == c[0] {
      BelowTransitive(a[1..], b[1..], c[1..]);
    }
  }

  lemma {:induction false} BelowTotal(a: string, b: string)
    requires a != b
    ensures Below(a, b) || Below(b, a)
    decreases |a|
  {
    if |a| > 0 && |b| > 0 && a[0] == b[0] {
      assert a == [a[0]] + a[1..] && b == [b[0]] + b[1..];
      BelowTotal(a[1..], b[1..]);
    }
  }

  /** The group of every entry, in table order. */
  function Groups(table: seq<SubjectItem>): (r: seq<string>)
    ensures |r| == |table| && forall k :: 0 <= k < |table| ==> r[k] == table[k].group
  {
    seq(|table|, k requires 0 <= k < |table| => table[k].group)
  }

  predicate NoDuplicates(xs: seq<string>) {
    forall i, j :: 0 <= i < j < |xs| ==> xs[i] != xs[j]
  }

  /** `[...new Set(xs)]`: the first occurrence of every value, in order. */
  function Distinct(xs: seq<string>): (r: seq<string>)
    ensures forall x :: x in r <==> x in xs
    ensures NoDuplicates(r)
  {
    if xs == [] then []
    else
      var d := Distinct(xs[..|xs| - 1]);
      assert xs == xs[..|xs| - 1] + [xs[|xs| - 1]];
      if xs[|xs| - 1] in d then d else d + [xs[|xs| - 1]]
  }

  /** Non-decreasing in the `sort` order. */
  predicate Sorted(xs: seq<string>) {
    forall i, j :: 0 <= i < j < |xs| ==> !Below(xs[j], xs[i])
  }

  predicate StrictlySorted(xs: seq<string>) {
    forall i, j :: 0 <= i < j < |xs| ==> Below(xs[i], xs[j])
  }

  /** One insertion step of the sort. */
  function Insert(x: string, xs: seq<string>): seq<string>
    decreases |xs|
  {
    if xs == [] || Below(x, xs[0]) then [x] + xs
    else [xs[0]] + Insert(x, xs[1..])
  }

  /** `Array.prototype.sort` with the default order, as an insertion sort:
      a sort's result is determined by its order up to equal values, and the
      values sorted here are distinct. */
  function Sort(xs: seq<string>): seq<string>
    decreases |xs|
  {
    if xs == [] then [] else Insert(xs[0], Sort(xs[1..]))
  }

  lemma {:induction false} InsertMultiset(x: string, xs: seq<string>)
    ensures multiset(Insert(x, xs)) == multiset(xs) + multiset{x}
    decreases |xs|
  {
    if xs != [] && !Below(x, xs[0]) {
      InsertMultiset(x, xs[1..]);
      assert xs == [xs[0]] + xs[1..];
    }
  }

  /** A value every element of `xs` and `x` itself are not below is not
      below anything in `Insert(x, xs)`. */
  lemma InsertKeepsLowerBound(h: string, x: string, xs: seq<string>)
    requires forall k :: 0 <= k < |xs| ==> !Below(xs[k], h)
    requires !Below(x, h)
    ensures forall k :: 0 <= k < |Insert(x, xs)| ==> !Below(Insert(x, xs)[k], h)
  {
    var r := Insert(x, xs);
    InsertMultiset(x, xs);
    forall k | 0 <= k < |r|
      ensures !Below(r[k], h)
    {
      assert r[k] in multiset(r);
      if r[k] != x {
        assert r[k] in multiset(xs);
        var m :| 0 <= m < |xs| && xs[m] == r[k];
      }
    }
  }

  lemma {:induction false} InsertSorted(x: string, xs: seq<string>)
    requires Sorted(xs)
    ensures Sorted(Insert(x, xs))
    decreases |xs|
  {
    if xs == [] || Below(x, xs[0]) {
      var r := [x] + xs;
      forall i, j | 0 <= i < j < |r|
        ensures !Below(r[j], r[i])
      {
        if i == 0 && Below(r[j], x) {
          BelowTransitive(r[j], x, xs[0]);
          if j == 1 {
            BelowIrreflexive(xs[0]);
          }
        }
      }
    } else {
      InsertSorted(x, xs[1..]);
      InsertKeepsLowerBound(xs[0], x, xs[1..]);
      var rest := Insert(x, xs[1..]);
      var r := [xs[0]] + rest;
      forall i, j | 0 <= i < j < |r|
        ensures !Below(r[j], r[i])
      {
        assert r[j] == rest[j - 1];
        if i > 0 {
          assert r[i] == rest[i - 1];
        }
      }
    }
  }

  lemma {:induction false} SortSorted(xs: seq<string>)
    ensures Sorted(Sort(xs))
    ensures multiset(Sort(xs)) == multiset(xs)
    decreases |xs|
  {
    if xs != [] {
      SortSorted(xs[1..]);
      InsertSorted(xs[0], Sort(xs[1..]));
      InsertMultiset(xs[0], Sort(xs[1..]));
      assert xs == [xs[0]] + xs[1..];
    }
  }

  /** A value occurs at most once in a sequence without duplicates. */
  lemma {:induction false} NoDuplicatesCount(xs: seq<string>, v: string)
    requires NoDuplicates(xs)
    ensures multiset(xs)[v] <= 1
    decreases |xs|
  {
    if xs != [] {
      var init := xs[..|xs| - 1];
      assert xs == init + [xs[|xs| - 1]];
      assert NoDuplicates(init);
      NoDuplicatesCount(init, v);
      if xs[|xs| - 1] == v {
        assert v !in init;
      }
    }
  }

  /** A value at two positions occurs at least twice. */
  lemma TwoPositions(xs: seq<string>, i: nat, j: nat)
    requires i < j < |xs| && xs[i] == xs[j]
    ensures multiset(xs)[xs[i]] >= 2
  {
    assert xs == xs[..i] + [xs[i]] + xs[i + 1..j] + [xs[j]] + xs[j + 1..];
  }

  /** A sorted permutation of distinct values is strictly sorted. */
  lemma SortedDistinctIsStrict(r: seq<string>, xs: seq<string>)
    requires Sorted(r) && NoDuplicates(xs) && multiset(r) == multiset(xs)
    ensures StrictlySorted(r)
  {
    forall i, j | 0 <= i < j < |r|
      ensures Below(r[i], r[j])
    {
      if r[i] == r[j] {
        TwoPositions(r, i, j);
        NoDuplicatesCount(xs, r[i]);
      }
      BelowTotal(r[i], r[j]);
    }
  }

  /** Equal multisets have the same members. */
  lemma SameMembers(a: seq<string>, b: seq<string>)
    requires multiset(a) == multiset(b)
    ensures forall x :: x in a <==> x in b
  {
    forall x
      ensures x in a <==> x in b
    {
      assert x in a <==> x in multiset(a);
      assert x in b <==> x in multiset(b);
    }
  }

  /** The groups listed are those of the entries. */
  lemma GroupsMembers(table: seq<SubjectItem>)
    ensures forall g :: g in Groups(table) <==> exists k :: 0 <= k < |table| && table[k].group == g
  {
    forall g | g in Groups(table)
      ensures exists k :: 0 <= k < |table| && table[k].group == g
    {
      var k :| 0 <= k < |table| && Groups(table)[k] == g;
    }
    forall g, k | 0 <= k < |table| && table[k].group == g
      ensures g in Groups(table)
    {
      assert Groups(table)[k] == g;
    }
  }

  /** `SUBJECT_GROUPS` of a table: every group of the table exactly once, in
      increasing order. */
  function SubjectGroups(table: seq<SubjectItem>): (r: seq<string>)
    ensures StrictlySorted(r)
    ensures forall g :: g in r <==> exists k :: 0 <= k < |table| && table[k].group == g
  {
    var d := Distinct(Groups(table));
    SortSorted(d);
    SortedDistinctIsStrict(Sort(d), d);
    SameMembers(Sort(d), d);
    GroupsMembers(table);
    Sort(d)
  }
}
