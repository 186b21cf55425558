/** The category table and the seed collection the store starts from and resets to. */
module Constants {
  import opened Types

  /** The categories in the order the enumeration declares them. */
  const AllCategoryTypes: seq<CategoryType> := [Laws, Locations, Instructions, Decisions, Fatwas]

  /** The position of a category in the enumeration. */
  function CategoryIndex(c: CategoryType): nat {
    match c
    case Laws => 0
    case Locations => 1
    case Instructions => 2
    case Decisions => 3
    case Fatwas => 4
  }

  /** `CATEGORIES`: one display entry per category. */
  const Categories: seq<CategoryConfig> := [
    CategoryConfig(Laws, "القوانين الضريبية والمعايير", "bg-blue-600",
      "قوانين الدخل، القيمة المضافة، والإجراءات الموحدة"),
    CategoryConfig(Locations, "عناوين المأموريات", "bg-emerald-600",
      "دليل عناوين المأموريات ونطاق الاختصاص الجغرافي"),
    CategoryConfig(Instructions, "التعليمات والكتب الدورية", "bg-slate-600",
      "التعليمات التنفيذية والكتب الدورية المنظمة للعمل"),
    CategoryConfig(Decisions, "القرارات والأحكام", "bg-indigo-600",
      "أحكام المحاكم وقرارات لجان الطعن الضريبي"),
    CategoryConfig(Fatwas, "فتاوى البحوث", "bg-amber-600",
      "الآراء والفتاوى الصادرة عن قطاع البحوث الضريبية")
  ]

  /** `MOCK_DOCUMENTS`: the seed collection. */
  const MockDocuments: seq<Document> := [
    Document("law-91-2005", "قانون الضريبة على الدخل رقم 91 لسنة 2005", Laws, "2005-06-09",
      Some("القانون المنظم للضريبة على دخل الأشخاص الطبيعيين والاعتباريين."),
      "مادة 1: تسري الضريبة على مجموع صافي دخل الأشخاص الطبيعيين المقيمين بالنسبة لدخولهم المحققة في مصر أو خارجها...",
      Some(["دخل", "أشخاص طبيعيين", "شركات"]), None),
    Document("law-206-2020", "قانون الإجراءات الضريبية الموحد رقم 206 لسنة 2020", Laws, "2020-10-19",
      Some("قانون لتوحيد إجراءات ربط وتحصيل الضريبة."),
      "يهدف هذا القانون إلى دمج الإجراءات الضريبية المختلفة وتبسيطها...",
      Some(["إجراءات", "رقمنة"]), None),
    Document("loc-cairo-1", "مأمورية ضرائب الشركات المساهمة بالقاهرة", Locations, "2023-01-01",
      Some("تختص بمحاسبة الشركات المساهمة داخل نطاق محافظة القاهرة."),
      "", None,
      Some(LocationData("26 شارع شريف، وسط البلد، القاهرة", "101", "القاهرة الكبرى"))),
    Document("loc-giza-inv", "مأمورية استثمار الجيزة", Locations, "2023-01-01",
      Some("تختص بشركات الاستثمار الواقعة في نطاق الجيزة."),
      "", None,
      Some(LocationData("مبنى الضرائب، الحي السابع، 6 أكتوبر", "205", "الجيزة"))),
    Document("inst-10-2023", "تعليمات تنفيذية رقم 10 لسنة 2023", Instructions, "2023-03-15",
      Some("بشأن أسس المحاسبة الضريبية لنشاط الصيدليات."),
      "نظراً لما تلاحظ من اختلاف في أسس المحاسبة... يتم اتباع الآتي: تحديد رقم الأعمال بناءً على المسحوبات...",
      Some(["صيدليات", "تجاري"]), None),
    Document("book-5-2024", "كتاب دوري رقم 5 لسنة 2024", Instructions, "2024-02-10",
      Some("بشأن منظومة الفاتورة الإلكترونية."),
      "يجب على جميع المسجلين الالتزام بإصدار فواتير إلكترونية...",
      Some(["فاتورة إلكترونية", "إلزام"]), None),
    Document("court-cass-155", "حكم محكمة النقض رقم 155 لسنة 80 ق", Decisions, "2015-11-20",
      Some("مبدأ هام بشأن تقادم دين الضريبة."),
      "قضت المحكمة بأن مدة التقادم خمس سنوات تبدأ من تاريخ...",
      Some(["تقادم", "نقض"]), None),
    Document("fatwa-export", "فتوى بشأن ضريبة القيمة المضافة على التصدير", Fatwas, "2023-07-01",
      Some("مدى خضوع خدمات التصدير للضريبة بسعر صفر."),
      "انتهى الرأي إلى أن الخدمات المؤداة لمستفيد بالخارج تخضع لسعر صفر...",
      Some(["قيمة مضافة", "تصدير"]), None)
  ]

  predicate IsDigit(c: char) {
    '0' <= c <= '9'
  }

  /** A `YYYY-MM-DD` string (its shape only, not a calendar check). */
  predicate IsIsoDate(s: string) {
    |s| == 10 && s[4] == '-' && s[7] == '-'
    && forall i :: 0 <= i < 10 && i != 4 && i != 7 ==> IsDigit(s[i])
  }

  /** The table has one entry per category, in enumeration order: entry `i` is
      the category whose index is `i`, and each category sits at its index. */
  lemma CategoriesFollowEnum()
    ensures |Categories| == |AllCategoryTypes| == 5
    ensures forall i :: 0 <= i < |Categories| ==> Categories[i].id == AllCategoryTypes[i]
    ensures forall i :: 0 <= i < |Categories| ==> CategoryIndex(Categories[i].id) == i
    ensures forall c: CategoryType :: CategoryIndex(c) < |Categories| && Categories[CategoryIndex(c)].id == c
  {
  }

  /** The seed collection: eight documents with pairwise distinct ids. */
  lemma MockDocumentsShape()
    ensures |MockDocuments| == 8
    ensures UniqueIds(MockDocuments)
  {
  }

  /** Every seed document has a non-empty id and title and an ISO-shaped date. */
  lemma MockDocumentsWellFormed()
    ensures forall i :: 0 <= i < |MockDocuments| ==>
      MockDocuments[i].id != "" && MockDocuments[i].title != "" && IsIsoDate(MockDocuments[i].date)
  {
    forall i | 0 <= i < |MockDocuments|
      ensures IsIsoDate(MockDocuments[i].date)
    {
      var s := MockDocuments[i].date;
      assert s in {"2005-06-09", "2020-10-19", "2023-01-01", "2023-03-15", "2024-02-10", "2015-11-20", "2023-07-01"};
    }
  }

  /** Every seed document's category has an entry in the category table. */
  lemma MockCategoriesConfigured()
    ensures forall d :: d in MockDocuments ==> exists c :: c in Categories && c.id == d.category
  {
    CategoriesFollowEnum();
    forall d | d in MockDocuments
      ensures exists c :: c in Categories && c.id == d.category
    {
      assert Categories[CategoryIndex(d.category)] in Categories;
    }
  }

  /** Exactly the two office-location documents carry location data. */
  lemma MockLocationsOnly()
    ensures forall d :: d in MockDocuments ==> (d.locationData.Some? <==> d.category == Locations)
    ensures forall i :: 0 <= i < |MockDocuments| ==> (MockDocuments[i].locationData.Some? <==> i == 2 || i == 3)
  {
  }
}
