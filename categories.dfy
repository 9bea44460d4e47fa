/** The category list both sidebars show (components/Sidebar.tsx declares
    the type and the default list; components/MobileSidebar.tsx repeats the
    list): partition by type, and the post total. */
module Categories {
  import opened Wrappers

  datatype Kind = Tech | Work | Custom

  datatype Category = Category(id: string, name: string, icon: Option<string>, count: int, kind: Kind)

  /** The placeholder list used until the backend serves categories: the
      technical categories, then the work categories. */
  const DefaultCategories: seq<Category> := DefaultTech + DefaultWork

  const DefaultTech: seq<Category> := [
    Category("react", "React", Some("⚛️"), 12, Tech),
    Category("nextjs", "Next.js", Some("▲"), 8, Tech),
    Category("typescript", "TypeScript", Some("📘"), 15, Tech),
    Category("spring", "Spring", Some("🌱"), 6, Tech),
    Category("java", "Java", Some("☕"), 9, Tech),
    Category("python", "Python", Some("🐍"), 4, Tech),
    Category("docker", "Docker", Some("🐳"), 3, Tech),
    Category("kubernetes", "Kubernetes", Some("☸️"), 2, Tech)
  ]

  const DefaultWork: seq<Category> := [
    Category("daily", "업무일지", Some("📝"), 24, Work),
    Category("project", "프로젝트", Some("📁"), 7, Work),
    Category("review", "회고", Some("🔄"), 5, Work),
    Category("til", "TIL", Some("💡"), 18, Work)
  ]

  function CategoryHref(id: string): string {
    "/category/" + id
  }

  /** `categories.filter((c) => c.type === kind)`. */
  function OfKind(categories: seq<Category>, kind: Kind): (section: seq<Category>)
    ensures |section| <= |categories|
    ensures forall c :: c in section <==> c in categories && c.kind == kind
  {
    if categories == [] then []
    else (if categories[0].kind == kind then [categories[0]] else []) + OfKind(categories[1..], kind)
  }

  /** Filtering distributes over concatenation: with the one-element case
      this pins the section down, order included. */
  lemma {:induction false} OfKindAppend(a: seq<Category>, b: seq<Category>, kind: Kind)
    ensures OfKind(a + b, kind) == OfKind(a, kind) + OfKind(b, kind)
  {
    if a == [] {
      assert a + b == b;
    } else {
      assert (a + b)[1..] == a[1..] + b;
      OfKindAppend(a[1..], b, kind);
    }
  }

  /** `categories.reduce((sum, c) => sum + c.count, 0)`, folded from the left. */
  function Total(categories: seq<Category>): (t: int)
    ensures |categories| == 1 ==> t == categories[0].count
    ensures (forall i :: 0 <= i < |categories| ==> categories[i].count >= 0) ==> t >= 0
  {
    if categories == [] then 0
    else Total(categories[..|categories| - 1]) + categories[|categories| - 1].count
  }

  lemma {:induction false} TotalAppend(a: seq<Category>, b: seq<Category>)
    ensures Total(a + b) == Total(a) + Total(b)
  {
    if b == [] {
      assert a + b == a;
    } else {
      assert (a + b)[..|a + b| - 1] == a + b[..|b| - 1];
      TotalAppend(a, b[..|b| - 1]);
    }
  }

  /** Adding one category at the end adds its count to its own section and
      to no other. */
  lemma OfKindSnoc(init: seq<Category>, last: Category, kind: Kind)
    ensures Total(OfKind(init + [last], kind)) ==
            Total(OfKind(init, kind)) + (if last.kind == kind then last.count else 0)
  {
    OfKindAppend(init, [last], kind);
    assert OfKind([last], kind) == (if last.kind == kind then [last] else []) + OfKind([], kind);
    TotalAppend(OfKind(init, kind), OfKind([last], kind));
    assert Total([last]) == Total([]) + last.count;
  }

  /** The total splits over the three kinds: custom categories are shown
      in no section but still count towards the total. */
  lemma {:induction false} TotalByKind(categories: seq<Category>)
    ensures Total(categories) ==
            Total(OfKind(categories, Tech)) + Total(OfKind(categories, Work)) + Total(OfKind(categories, Custom))
  {
    if categories != [] {
      var init, last := categories[..|categories| - 1], categories[|categories| - 1];
      assert categories == init + [last];
      TotalByKind(init);
      OfKindSnoc(init, last, Tech);
      OfKindSnoc(init, last, Work);
      OfKindSnoc(init, last, Custom);
    }
  }

  lemma {:induction false} OfKindAll(categories: seq<Category>, kind: Kind)
    requires forall i :: 0 <= i < |categories| ==> categories[i].kind == kind
    ensures OfKind(categories, kind) == categories
  {
    if categories != [] {
      OfKindAll(categories[1..], kind);
    }
  }

  lemma {:induction false} OfKindNone(categories: seq<Category>, kind: Kind)
    requires forall i :: 0 <= i < |categories| ==> categories[i].kind != kind
    ensures OfKind(categories, kind) == []
  {
    if categories != [] {
      OfKindNone(categories[1..], kind);
    }
  }

  lemma DefaultTechTotal()
    ensures Total(DefaultTech) == 59
  {
    var t := DefaultTech;
    assert Total(t[..1]) == 12 by { assert t[..1][..0] == []; }
    assert Total(t[..2]) == 20 by { assert t[..2][..1] == t[..1]; }
    assert Total(t[..3]) == 35 by { assert t[..3][..2] == t[..2]; }
    assert Total(t[..4]) == 41 by { assert t[..4][..3] == t[..3]; }
    assert Total(t[..5]) == 50 by { assert t[..5][..4] == t[..4]; }
    assert Total(t[..6]) == 54 by { assert t[..6][..5] == t[..5]; }
    assert Total(t[..7]) == 57 by { assert t[..7][..6] == t[..6]; }
    assert t[..8] == t;
    assert t[..7] == t[..|t| - 1];
  }

  lemma DefaultWorkTotal()
    ensures Total(DefaultWork) == 54
  {
    var w := DefaultWork;
    assert Total(w[..1]) == 24 by { assert w[..1][..0] == []; }
    assert Total(w[..2]) == 31 by { assert w[..2][..1] == w[..1]; }
    assert Total(w[..3]) == 36 by { assert w[..3][..2] == w[..2]; }
    assert w[..3] == w[..|w| - 1];
  }

  /** A list made of a run of one kind followed by a run of another splits
      back into the two runs; the third kind gets nothing. */
  lemma TwoRuns(a: seq<Category>, b: seq<Category>, ka: Kind, kb: Kind, kc: Kind)
    requires ka != kb && kb != kc && kc != ka
    requires forall i :: 0 <= i < |a| ==> a[i].kind == ka
    requires forall i :: 0 <= i < |b| ==> b[i].kind == kb
    ensures OfKind(a + b, ka) == a && OfKind(a + b, kb) == b && OfKind(a + b, kc) == []
  {
    OfKindAll(a, ka);
    OfKindNone(a, kb);
    OfKindNone(a, kc);
    OfKindNone(b, ka);
    OfKindAll(b, kb);
    OfKindNone(b, kc);
    OfKindAppend(a, b, ka);
    OfKindAppend(a, b, kb);
    OfKindAppend(a, b, kc);
    assert a + [] == a && [] + b == b;
  }

  lemma DefaultSections()
    ensures OfKind(DefaultCategories, Tech) == DefaultTech
    ensures OfKind(DefaultCategories, Work) == DefaultWork
    ensures OfKind(DefaultCategories, Custom) == []
  {
    TwoRuns(DefaultTech, DefaultWork, Tech, Work, Custom);
  }

  /** With the default list: 59 technical posts, 54 work posts, 113 in all. */
  lemma DefaultTotals()
    ensures Total(OfKind(DefaultCategories, Tech)) == 59
    ensures Total(OfKind(DefaultCategories, Work)) == 54
    ensures OfKind(DefaultCategories, Custom) == []
    ensures Total(DefaultCategories) == 113
  {
    DefaultSections();
    DefaultTechTotal();
    DefaultWorkTotal();
    TotalByKind(DefaultCategories);
  }
}
