/** The CSV import command (front4/backend/api/management/commands/load_csv_data.py):
    NGO rows of `res.csv` and material rows of `materials.csv`, both
    `;`-separated and already split into cells. The database is a `Catalog`
    object whose tables are maps keyed by their unique column; Django's
    `slugify` is a parameter. */
module CsvImport {
  import opened Seqs
  import opened Text

  // ----------------------------------------------------------- NGO rows

  /** `row[i].strip() if len(row) > i else ''`. */
  function Cell(row: seq<string>, i: nat): string {
    if |row| > i then Strip(row[i]) else ""
  }

  /** `not row or all(not cell.strip() for cell in row)`. */
  predicate BlankRow(row: seq<string>) {
    forall i :: 0 <= i < |row| ==> Strip(row[i]) == ""
  }

  /** What `load_ngos` does with a row. */
  datatype RowClass =
    | Blank
    | TooShort
    | NoName
    | NoCategory
    | NgoRow(city: string, category: string, name: string, description: string, website: string)

  function ClassifyRow(row: seq<string>): (r: RowClass)
    ensures r.Blank? <==> BlankRow(row)
    ensures r.TooShort? <==> !BlankRow(row) && |row| < 3
    ensures r.NgoRow? <==> !BlankRow(row) && |row| >= 3 && Strip(row[2]) != "" && Strip(row[1]) != ""
    ensures r.NgoRow? ==> r.name != "" && r.category != "" && r.city == Strip(row[0])
  {
    if BlankRow(row) then Blank
    else if |row| < 3 then TooShort
    else if Cell(row, 2) == "" then NoName
    else if Cell(row, 1) == "" then NoCategory
    else NgoRow(Cell(row, 0), Cell(row, 1), Cell(row, 2), Cell(row, 3), Cell(row, 4))
  }

  predicate Skipped(c: RowClass) {
    c.TooShort? || c.NoName? || c.NoCategory?
  }

  /** Rows that create an NGO. */
  function ValidRows(rows: seq<seq<string>>): (n: nat)
    ensures n <= |rows|
    decreases |rows|
  {
    if rows == [] then 0
    else ValidRows(rows[..|rows| - 1]) + (if ClassifyRow(rows[|rows| - 1]).NgoRow? then 1 else 0)
  }

  /** Rows counted in `skipped`. */
  function SkippedRows(rows: seq<seq<string>>): (n: nat)
    ensures n <= |rows|
    decreases |rows|
  {
    if rows == [] then 0
    else SkippedRows(rows[..|rows| - 1]) + (if Skipped(ClassifyRow(rows[|rows| - 1])) then 1 else 0)
  }

  /** Rows passed over silently. */
  function BlankRows(rows: seq<seq<string>>): (n: nat)
    decreases |rows|
  {
    if rows == [] then 0
    else BlankRows(rows[..|rows| - 1]) + (if BlankRow(rows[|rows| - 1]) then 1 else 0)
  }

  /** Every row is blank, skipped or loaded, and exactly one of them. */
  lemma {:induction false} EveryRowAccounted(rows: seq<seq<string>>)
    ensures ValidRows(rows) + SkippedRows(rows) + BlankRows(rows) == |rows|
    decreases |rows|
  {
    if rows != [] {
      EveryRowAccounted(rows[..|rows| - 1]);
    }
  }

  lemma CountsSnoc(rows: seq<seq<string>>, i: nat)
    requires i < |rows|
    ensures ValidRows(rows[..i + 1]) == ValidRows(rows[..i]) + (if ClassifyRow(rows[i]).NgoRow? then 1 else 0)
    ensures SkippedRows(rows[..i + 1]) == SkippedRows(rows[..i]) + (if Skipped(ClassifyRow(rows[i])) then 1 else 0)
  {
    assert rows[..i + 1][..i] == rows[..i];
  }

  /** The text `slugify` is applied to for the NGO slug. */
  function SlugBase(name: string, city: string): (r: string)
    ensures city == "" ==> r == name
    ensures city != "" ==> r == name + " " + city
  {
    if city != "" then name + " " + city else name
  }

  /** `f"{original_slug}-{counter}"`. */
  function Candidate(orig: string, k: nat): (r: string)
    ensures |r| > |orig| && r[..|orig|] == orig
  {
    orig + "-" + NatToString(k)
  }

  /** Different counters give different candidates. */
  lemma CandidateInjective(orig: string, a: nat, b: nat)
    requires Candidate(orig, a) == Candidate(orig, b)
    ensures a == b
  {
    assert Candidate(orig, a)[|orig| + 1..] == NatToString(a);
    assert Candidate(orig, b)[|orig| + 1..] == NatToString(b);
    NatToStringInjective(a, b);
  }

  /** The candidates the loop has found taken before trying the current one. */
  ghost function Tried(orig: string, counter: nat): set<string> {
    (if counter > 1 then {orig} else {}) + set j | 1 <= j < counter - 1 :: Candidate(orig, j)
  }

  /** One more turn of the loop: the current candidate joins the tried
      ones, and the next candidate is new. */
  lemma TriedStep(orig: string, counter: nat)
    requires counter >= 1
    ensures Tried(orig, counter + 1) == Tried(orig, counter) + {if counter == 1 then orig else Candidate(orig, counter - 1)}
    ensures Candidate(orig, counter) !in Tried(orig, counter + 1)
  {
    var next := Candidate(orig, counter);
    forall j | 1 <= j < counter ensures Candidate(orig, j) != next {
      if Candidate(orig, j) == next {
        CandidateInjective(orig, j, counter);
      }
    }
  }

  /** The slug de-duplication loop: the original slug if it is free,
      otherwise `original-k` for the smallest k >= 1 that is free; `k` is
      returned as `suffix` (0 for the original). */
  method UniqueSlug(orig: string, taken: set<string>) returns (slug: string, suffix: nat)
    ensures slug !in taken
    ensures suffix == 0 <==> orig !in taken
    ensures suffix == 0 ==> slug == orig
    ensures suffix >= 1 ==> slug == Candidate(orig, suffix)
    ensures forall j :: 1 <= j < suffix ==> Candidate(orig, j) in taken
  {
    slug := orig;
    var counter: nat := 1;
    ghost var tried: set<string> := {};
    while slug in taken
      invariant counter >= 1
      invariant slug == if counter == 1 then orig else Candidate(orig, counter - 1)
      invariant tried == Tried(orig, counter)
      invariant tried <= taken
      invariant slug !in tried
      invariant counter > 1 ==> orig in taken
      invariant forall j :: 1 <= j < counter - 1 ==> Candidate(orig, j) in taken
      decreases |taken - tried|
    {
      assert taken - (tried + {slug}) < taken - tried;
      TriedStep(orig, counter);
      tried := tried + {slug};
      slug := Candidate(orig, counter);
      counter := counter + 1;
    }
    suffix := counter - 1;
  }

  /** A `NGO` row as the import creates it. */
  datatype NgoRecord = NgoRecord(name: string, categorySlug: string, city: string,
                                 shortDescription: string, description: string,
                                 website: string, status: string)

  /** The `defaults` of the NGO `get_or_create`. */
  function NewNgo(name: string, categorySlug: string, city: string, description: string,
                  website: string): (r: NgoRecord)
    ensures r.status == "approved" && r.name == name && r.categorySlug == categorySlug
    ensures r.city != "" && (city != "" ==> r.city == city) && (city == "" ==> r.city == "Не указан")
    ensures description != "" ==>
      (r.description == description
       && |r.shortDescription| == (if |description| < 300 then |description| else 300)
       && StartsWith(description, r.shortDescription))
    ensures description == "" ==> r.shortDescription == r.description == "НКО: " + name
    ensures r.website != "-" && (website != "-" ==> r.website == website) && (website == "-" ==> r.website == "")
  {
    NgoRecord(name, categorySlug,
              if city != "" then city else "Не указан",
              if description != "" then (if |description| <= 300 then description else description[..300]) else "НКО: " + name,
              if description != "" then description else "НКО: " + name,
              if website != "" && website != "-" then website else "",
              "approved")
  }

  // ------------------------------------------------------ material rows

  /** A `Material` row: the fields the import sets. */
  datatype MaterialRecord = MaterialRecord(title: string, course: string, author: string)

  /** `[f(t) for t in pieces if f(t)]`: the non-blank images of the
      pieces, in order. */
  function NonBlankImages(pieces: seq<string>, f: string -> string): (r: seq<string>)
    ensures forall i :: 0 <= i < |r| ==> r[i] != ""
    decreases |pieces|
  {
    if pieces == [] then []
    else
      var rest := NonBlankImages(pieces[1..], f);
      if f(pieces[0]) != "" then [f(pieces[0])] + rest else rest
  }

  /** Every value kept is the non-blank image of a piece. */
  lemma {:induction false} NonBlankImageFrom(pieces: seq<string>, f: string -> string, t: string) returns (j: nat)
    requires t in NonBlankImages(pieces, f)
    ensures j < |pieces| && t == f(pieces[j]) && t != ""
    decreases |pieces|
  {
    if f(pieces[0]) != "" && t == f(pieces[0]) {
      j := 0;
    } else {
      assert t in NonBlankImages(pieces[1..], f);
      var k := NonBlankImageFrom(pieces[1..], f, t);
      assert pieces[1..][k] == pieces[k + 1];
      j := k + 1;
    }
  }

  /** Every non-blank image of a piece is kept. */
  lemma {:induction false} NonBlankImageHas(pieces: seq<string>, f: string -> string, j: nat)
    requires j < |pieces| && f(pieces[j]) != ""
    ensures f(pieces[j]) in NonBlankImages(pieces, f)
    decreases |pieces|
  {
    if j > 0 {
      assert pieces[1..][j - 1] == pieces[j];
      NonBlankImageHas(pieces[1..], f, j - 1);
    }
  }

  /** `[t.strip() for t in tags_str.split('{{') if t.strip()]` over the
      pieces of the split. */
  function NonBlankStripped(pieces: seq<string>): seq<string> {
    NonBlankImages(pieces, Strip)
  }

  /** The tags are exactly the non-blank stripped pieces. */
  lemma NonBlankStrippedMembers(pieces: seq<string>, t: string)
    ensures t in NonBlankStripped(pieces) <==> t != "" && exists j :: 0 <= j < |pieces| && t == Strip(pieces[j])
  {
    if t in NonBlankStripped(pieces) {
      var j := NonBlankImageFrom(pieces, Strip, t);
      assert t == Strip(pieces[j]);
    }
    if t != "" && exists j :: 0 <= j < |pieces| && t == Strip(pieces[j]) {
      var j :| 0 <= j < |pieces| && t == Strip(pieces[j]);
      NonBlankImageHas(pieces, Strip, j);
    }
  }

  function TagNames(tagsStr: string): (r: seq<string>)
    ensures forall i :: 0 <= i < |r| ==> r[i] != ""
  {
    NonBlankStripped(Split(tagsStr, "{{"))
  }

  /** Every tag name is stripped and not blank. */
  lemma TagNamesStripped(tagsStr: string)
    ensures forall t :: t in TagNames(tagsStr) ==> t != "" && IsTrimmed(t, PySpace)
  {
    var pieces := Split(tagsStr, "{{");
    forall t | t in TagNames(tagsStr) ensures IsTrimmed(t, PySpace) {
      NonBlankStrippedMembers(pieces, t);
      var j :| 0 <= j < |pieces| && t == Strip(pieces[j]);
      TrimFacts(pieces[j], PySpace);
    }
  }

  /** An empty tag column gives no tags, so the `if tags_str` guard
      changes nothing. */
  lemma EmptyTagsNone()
    ensures TagNames("") == []
  {
    var pieces := Split("", "{{");
    assert pieces == [""];
    assert |Strip("")| <= 0;
    assert pieces[1..] == [];
  }

  /** What `load_materials` does with a row. */
  datatype MaterialRow = Ignored | MaterialRow(tags: string, title: string, course: string, author: string, url: string)

  function ClassifyMaterial(row: seq<string>): (r: MaterialRow)
    ensures r.MaterialRow? <==> |row| >= 5 && Strip(row[1]) != "" && Strip(row[4]) != ""
    ensures r.MaterialRow? ==> r.title != "" && r.url != "" && r.url == Strip(row[4])
  {
    if |row| < 5 then Ignored
    else if Cell(row, 1) == "" || Cell(row, 4) == "" then Ignored
    else MaterialRow(Cell(row, 0), Cell(row, 1), Cell(row, 2), Cell(row, 3), Cell(row, 4))
  }

  /** The (material, tag) links made for the tag names `names`. */
  function TagLinks(url: string, names: seq<string>, slugify: string -> string): (r: set<(string, string)>)
    ensures forall p :: p in r ==> p.0 == url
  {
    set i | 0 <= i < |names| :: (url, slugify(names[i]))
  }
  /** The slugs of the tag names. */
  function TagSlugs(names: seq<string>, slugify: string -> string): (r: set<string>)
    ensures forall i :: 0 <= i < |names| ==> slugify(names[i]) in r
    ensures forall t :: t in r ==> exists i :: 0 <= i < |names| && t == slugify(names[i])
  {
    set i | 0 <= i < |names| :: slugify(names[i])
  }

  /** The tag table after `Tag.objects.get_or_create(slug=slugify(name),
      defaults={'name': name})` for each name in turn: a slug already
      present keeps its tag. */
  function GetOrCreateTags(tags: map<string, string>, names: seq<string>, slugify: string -> string): map<string, string>
    decreases |names|
  {
    if names == [] then tags
    else
      var before := GetOrCreateTags(tags, names[..|names| - 1], slugify);
      var name := names[|names| - 1];
      if slugify(name) in before then before else before[slugify(name) := name]
  }

  /** The tag table gains exactly the slugs of the names. */
  lemma {:induction false} GetOrCreateTagsKeys(tags: map<string, string>, names: seq<string>, slugify: string -> string)
    ensures GetOrCreateTags(tags, names, slugify).Keys == tags.Keys + TagSlugs(names, slugify)
    decreases |names|
  {
    if names != [] {
      var k := |names| - 1;
      GetOrCreateTagsKeys(tags, names[..k], slugify);
      SlugStep(names, k, slugify);
      assert names[..k + 1] == names;
    }
  }

  /** Existing tags keep their names. */
  lemma {:induction false} GetOrCreateTagsKeeps(tags: map<string, string>, names: seq<string>, slugify: string -> string)
    ensures forall s :: s in tags ==>
      s in GetOrCreateTags(tags, names, slugify) && GetOrCreateTags(tags, names, slugify)[s] == tags[s]
    decreases |names|
  {
    if names != [] {
      GetOrCreateTagsKeeps(tags, names[..|names| - 1], slugify);
    }
  }

  /** A created tag is named after a name with its slug. */
  lemma {:induction false} GetOrCreateTagsNamed(tags: map<string, string>, names: seq<string>, slugify: string -> string)
    ensures forall s :: s in GetOrCreateTags(tags, names, slugify) ==>
      s in tags || exists i :: 0 <= i < |names| && s == slugify(names[i]) && GetOrCreateTags(tags, names, slugify)[s] == names[i]
    decreases |names|
  {
    if names != [] {
      var k := |names| - 1;
      var init := names[..k];
      GetOrCreateTagsNamed(tags, init, slugify);
      var before := GetOrCreateTags(tags, init, slugify);
      var after := GetOrCreateTags(tags, names, slugify);
      forall s | s in after && s !in tags
        ensures exists i :: 0 <= i < |names| && s == slugify(names[i]) && after[s] == names[i]
      {
        if s in before {
          var i :| 0 <= i < |init| && s == slugify(init[i]) && before[s] == init[i];
          assert after[s] == before[s];
          assert init[i] == names[i];
        } else {
          assert s == slugify(names[k]) && after[s] == names[k];
        }
      }
    }
  }

  /** One more tag name read by the tag loop. */
  lemma LinkStep(url: string, names: seq<string>, k: nat, slugify: string -> string)
    requires k < |names|
    ensures TagLinks(url, names[..k + 1], slugify) == TagLinks(url, names[..k], slugify) + {(url, slugify(names[k]))}
  {
    assert names[..k + 1][k] == names[k];
    forall i | 0 <= i < k ensures names[..k + 1][i] == names[..k][i] {}
  }

  lemma SlugStep(names: seq<string>, k: nat, slugify: string -> string)
    requires k < |names|
    ensures TagSlugs(names[..k + 1], slugify) == TagSlugs(names[..k], slugify) + {slugify(names[k])}
  {
    assert names[..k + 1][k] == names[k];
    forall i | 0 <= i < k ensures names[..k + 1][i] == names[..k][i] {}
  }


  // ------------------------------------------------- loading, as values

  /** The rows of a file as `load_ngos` classifies them. */
  function Classes(rows: seq<seq<string>>): (cs: seq<RowClass>)
    ensures |cs| == |rows|
    decreases |rows|
  {
    if rows == [] then [] else Classes(rows[..|rows| - 1]) + [ClassifyRow(rows[|rows| - 1])]
  }

  /** Row `i` is classified in place. */
  lemma {:induction false} ClassAt(rows: seq<seq<string>>, i: nat)
    requires i < |rows|
    ensures Classes(rows)[i] == ClassifyRow(rows[i])
    decreases |rows|
  {
    if i < |rows| - 1 {
      ClassAt(rows[..|rows| - 1], i);
    }
  }

  /** The NGO a loaded row creates. */
  function RowNgo(c: RowClass, slugify: string -> string): NgoRecord
    requires c.NgoRow?
  {
    NewNgo(c.name, slugify(c.category), c.city, c.description, c.website)
  }

  /** The category table after the `get_or_create(slug=slugify(category))`
      of one row: a slug already present keeps its category. */
  function CategoryStep(cats: map<string, string>, c: RowClass, slugify: string -> string): map<string, string> {
    if c.NgoRow? && slugify(c.category) !in cats then cats[slugify(c.category) := c.category] else cats
  }

  /** The category table after the first `k` rows. */
  function CategoriesAfter(cats: map<string, string>, cs: seq<RowClass>, k: nat,
                           slugify: string -> string): map<string, string>
    requires k <= |cs|
    decreases k
  {
    if k == 0 then cats else CategoryStep(CategoriesAfter(cats, cs, k - 1, slugify), cs[k - 1], slugify)
  }

  /** The category slugs of the loaded rows among the first `k`. */
  function LoadedCategorySlugs(cs: seq<RowClass>, k: nat, slugify: string -> string): set<string>
    requires k <= |cs|
  {
    set i | 0 <= i < k && cs[i].NgoRow? :: slugify(cs[i].category)
  }

  /** Row `i` is loaded, its category has slug `s`, and no earlier loaded
      row's category has that slug. */
  predicate FirstWithSlug(cs: seq<RowClass>, i: nat, s: string, slugify: string -> string)
    requires i < |cs|
  {
    cs[i].NgoRow? && slugify(cs[i].category) == s
    && forall j :: 0 <= j < i && cs[j].NgoRow? ==> slugify(cs[j].category) != s
  }

  /** The import adds exactly the categories of the loaded rows. */
  lemma {:induction false} CategoriesAfterKeys(cats: map<string, string>, cs: seq<RowClass>, k: nat,
                                               slugify: string -> string)
    requires k <= |cs|
    ensures CategoriesAfter(cats, cs, k, slugify).Keys == cats.Keys + LoadedCategorySlugs(cs, k, slugify)
    decreases k
  {
    if k > 0 {
      CategoriesAfterKeys(cats, cs, k - 1, slugify);
      assert LoadedCategorySlugs(cs, k, slugify)
          == LoadedCategorySlugs(cs, k - 1, slugify) + (if cs[k - 1].NgoRow? then {slugify(cs[k - 1].category)} else {});
    }
  }

  /** A category there before keeps its name. */
  lemma {:induction false} CategoriesAfterKeeps(cats: map<string, string>, cs: seq<RowClass>, k: nat,
                                                slugify: string -> string)
    requires k <= |cs|
    ensures forall s :: s in cats ==>
      s in CategoriesAfter(cats, cs, k, slugify) && CategoriesAfter(cats, cs, k, slugify)[s] == cats[s]
    decreases k
  {
    if k > 0 {
      CategoriesAfterKeeps(cats, cs, k - 1, slugify);
    }
  }

  /** A new category is named by the first loaded row whose category has
      its slug. */
  lemma {:induction false} CategoriesAfterNamed(cats: map<string, string>, cs: seq<RowClass>, k: nat,
                                                slugify: string -> string)
    requires k <= |cs|
    ensures forall s :: s in CategoriesAfter(cats, cs, k, slugify) && s !in cats ==>
      exists i :: 0 <= i < k && FirstWithSlug(cs, i, s, slugify) && CategoriesAfter(cats, cs, k, slugify)[s] == cs[i].category
    decreases k
  {
    if k > 0 {
      CategoriesAfterNamed(cats, cs, k - 1, slugify);
      CategoriesAfterKeys(cats, cs, k - 1, slugify);
      var before := CategoriesAfter(cats, cs, k - 1, slugify);
      var after := CategoriesAfter(cats, cs, k, slugify);
      forall s | s in after && s !in cats
        ensures exists i :: 0 <= i < k && FirstWithSlug(cs, i, s, slugify) && after[s] == cs[i].category
      {
        if s in before {
          var i :| 0 <= i < k - 1 && FirstWithSlug(cs, i, s, slugify) && before[s] == cs[i].category;
          assert after[s] == before[s];
        } else {
          forall j | 0 <= j < k - 1 && cs[j].NgoRow? ensures slugify(cs[j].category) != s {
            assert slugify(cs[j].category) in LoadedCategorySlugs(cs, k - 1, slugify);
          }
          assert FirstWithSlug(cs, k - 1, s, slugify);
        }
      }
    }
  }

  /** The NGOs the loaded rows among the first `k` create. */
  function LoadedNgos(cs: seq<RowClass>, k: nat, slugify: string -> string): set<NgoRecord>
    requires k <= |cs|
  {
    set i | 0 <= i < k && cs[i].NgoRow? :: RowNgo(cs[i], slugify)
  }

  /** The NGOs of `ngos` not in `n0` are exactly those of the loaded rows
      among the first `k`: each comes from such a row, and each such row
      has one. */
  predicate NgosFromRows(ngos: map<string, NgoRecord>, n0: map<string, NgoRecord>, cs: seq<RowClass>, k: nat,
                         slugify: string -> string)
    requires k <= |cs|
  {
    (ngos - n0.Keys).Values == LoadedNgos(cs, k, slugify)
  }

  /** The loaded NGOs grow by the NGO of each loaded row. */
  lemma LoadedNgosSnoc(cs: seq<RowClass>, i: nat, slugify: string -> string)
    requires i < |cs|
    ensures LoadedNgos(cs, i + 1, slugify)
      == LoadedNgos(cs, i, slugify) + (if cs[i].NgoRow? then {RowNgo(cs[i], slugify)} else {})
  {
  }

  /** Storing a value under a fresh key adds it to the new values. */
  lemma NewValuesStep<V>(keys: set<string>, m: map<string, V>, slug: string, r: V)
    requires slug !in m && slug !in keys
    ensures (m[slug := r] - keys).Values == (m - keys).Values + {r}
  {
    var n := m - keys;
    assert m[slug := r] - keys == n[slug := r];
    forall v | v in n[slug := r].Values ensures v in n.Values + {r} {
      var t :| t in n[slug := r] && n[slug := r][t] == v;
      if t != slug {
        assert n[t] == v;
      }
    }
    forall v | v in n.Values ensures v in n[slug := r].Values {
      var t :| t in n && n[t] == v;
      assert n[slug := r][t] == v;
    }
    assert n[slug := r][slug] == r;
  }

  /** One more row keeps `NgosFromRows`: an NGO it creates under a fresh
      slug comes from it. */
  lemma NgosFromRowsStep(n0: map<string, NgoRecord>, before: map<string, NgoRecord>, after: map<string, NgoRecord>,
                         cs: seq<RowClass>, i: nat, slugify: string -> string, slug: string)
    requires i < |cs| && NgosFromRows(before, n0, cs, i, slugify) && n0.Keys <= before.Keys
    requires cs[i].NgoRow? ==> slug !in before && after == before[slug := RowNgo(cs[i], slugify)]
    requires !cs[i].NgoRow? ==> after == before
    ensures NgosFromRows(after, n0, cs, i + 1, slugify)
  {
    LoadedNgosSnoc(cs, i, slugify);
    if cs[i].NgoRow? {
      NewValuesStep(n0.Keys, before, slug, RowNgo(cs[i], slugify));
    }
  }

  /** The rows of a file as `load_materials` classifies them. */
  function MaterialClasses(rows: seq<seq<string>>): (ms: seq<MaterialRow>)
    ensures |ms| == |rows|
    decreases |rows|
  {
    if rows == [] then [] else MaterialClasses(rows[..|rows| - 1]) + [ClassifyMaterial(rows[|rows| - 1])]
  }

  /** Row `i` is classified in place. */
  lemma {:induction false} MaterialClassAt(rows: seq<seq<string>>, i: nat)
    requires i < |rows|
    ensures MaterialClasses(rows)[i] == ClassifyMaterial(rows[i])
    decreases |rows|
  {
    if i < |rows| - 1 {
      MaterialClassAt(rows[..|rows| - 1], i);
    }
  }

  /** The row is usable and its url is not stored yet. */
  predicate Creates(m: map<string, MaterialRecord>, r: MaterialRow) {
    r.MaterialRow? && r.url !in m
  }

  /** The material table after the first `k` rows: a usable row whose url
      is new stores its material. */
  function StoredAfter(m0: map<string, MaterialRecord>, ms: seq<MaterialRow>, k: nat): map<string, MaterialRecord>
    requires k <= |ms|
    decreases k
  {
    if k == 0 then m0
    else
      var m := StoredAfter(m0, ms, k - 1);
      var r := ms[k - 1];
      if Creates(m, r) then m[r.url := MaterialRecord(r.title, r.course, r.author)] else m
  }

  /** The tag table after the first `k` rows: a row that stores its
      material gets or creates its tags. */
  function TagsAfter(m0: map<string, MaterialRecord>, g0: map<string, string>, ms: seq<MaterialRow>, k: nat,
                     slugify: string -> string): map<string, string>
    requires k <= |ms|
    decreases k
  {
    if k == 0 then g0
    else
      var g := TagsAfter(m0, g0, ms, k - 1, slugify);
      if Creates(StoredAfter(m0, ms, k - 1), ms[k - 1]) then GetOrCreateTags(g, TagNames(ms[k - 1].tags), slugify) else g
  }

  /** The material-tag links after the first `k` rows: a row that stores
      its material links it to its tags. */
  function LinksAfter(m0: map<string, MaterialRecord>, l0: set<(string, string)>, ms: seq<MaterialRow>, k: nat,
                      slugify: string -> string): set<(string, string)>
    requires k <= |ms|
    decreases k
  {
    if k == 0 then l0
    else
      var l := LinksAfter(m0, l0, ms, k - 1, slugify);
      var r := ms[k - 1];
      if Creates(StoredAfter(m0, ms, k - 1), r) then l + TagLinks(r.url, TagNames(r.tags), slugify) else l
  }

  /** The number of materials the first `k` rows create. */
  function CreatedMaterials(m0: map<string, MaterialRecord>, ms: seq<MaterialRow>, k: nat): nat
    requires k <= |ms|
    decreases k
  {
    if k == 0 then 0
    else (CreatedMaterials(m0, ms, k - 1) + if Creates(StoredAfter(m0, ms, k - 1), ms[k - 1]) then 1 else 0)
  }

  /** The urls of the usable rows among the first `k`. */
  function UsableUrls(ms: seq<MaterialRow>, k: nat): set<string>
    requires k <= |ms|
  {
    set i | 0 <= i < k && ms[i].MaterialRow? :: ms[i].url
  }

  /** The materials gained are exactly the usable rows' urls. */
  lemma {:induction false} StoredAfterKeys(m0: map<string, MaterialRecord>, ms: seq<MaterialRow>, k: nat)
    requires k <= |ms|
    ensures StoredAfter(m0, ms, k).Keys == m0.Keys + UsableUrls(ms, k)
    decreases k
  {
    if k > 0 {
      StoredAfterKeys(m0, ms, k - 1);
      var r := ms[k - 1];
      assert UsableUrls(ms, k) == UsableUrls(ms, k - 1) + (if r.MaterialRow? then {r.url} else {});
    }
  }

  /** Each created material adds one entry. */
  lemma {:induction false} CreatedMaterialsSize(m0: map<string, MaterialRecord>, ms: seq<MaterialRow>, k: nat)
    requires k <= |ms|
    ensures |StoredAfter(m0, ms, k)| == |m0| + CreatedMaterials(m0, ms, k)
    decreases k
  {
    if k > 0 {
      CreatedMaterialsSize(m0, ms, k - 1);
    }
  }

  /** Each url is stored once: the count is the number of usable rows'
      urls that were not stored before. */
  lemma CreatedMaterialsCount(m0: map<string, MaterialRecord>, ms: seq<MaterialRow>, k: nat)
    requires k <= |ms|
    ensures CreatedMaterials(m0, ms, k) == |UsableUrls(ms, k) - m0.Keys|
  {
    CreatedMaterialsSize(m0, ms, k);
    StoredAfterKeys(m0, ms, k);
    var added := UsableUrls(ms, k) - m0.Keys;
    assert StoredAfter(m0, ms, k).Keys == m0.Keys + added;
    assert m0.Keys * added == {};
    assert |StoredAfter(m0, ms, k).Keys| == |StoredAfter(m0, ms, k)|;
  }

  /** The materials there before are kept. */
  lemma {:induction false} StoredAfterKeeps(m0: map<string, MaterialRecord>, ms: seq<MaterialRow>, k: nat)
    requires k <= |ms|
    ensures forall u :: u in m0 ==> u in StoredAfter(m0, ms, k) && StoredAfter(m0, ms, k)[u] == m0[u]
    decreases k
  {
    if k > 0 {
      StoredAfterKeeps(m0, ms, k - 1);
    }
  }

  /** The tags there before keep their names. */
  lemma {:induction false} TagsAfterKeeps(m0: map<string, MaterialRecord>, g0: map<string, string>,
                                          ms: seq<MaterialRow>, k: nat, slugify: string -> string)
    requires k <= |ms|
    ensures forall s :: s in g0 ==> s in TagsAfter(m0, g0, ms, k, slugify) && TagsAfter(m0, g0, ms, k, slugify)[s] == g0[s]
    decreases k
  {
    if k > 0 {
      TagsAfterKeeps(m0, g0, ms, k - 1, slugify);
      if Creates(StoredAfter(m0, ms, k - 1), ms[k - 1]) {
        GetOrCreateTagsKeeps(TagsAfter(m0, g0, ms, k - 1, slugify), TagNames(ms[k - 1].tags), slugify);
      }
    }
  }

  /** The links there before are kept, and every new link belongs to a
      usable row whose material was not stored before. */
  lemma {:induction false} LinksAfterNew(m0: map<string, MaterialRecord>, l0: set<(string, string)>,
                                         ms: seq<MaterialRow>, k: nat, slugify: string -> string)
    requires k <= |ms|
    ensures l0 <= LinksAfter(m0, l0, ms, k, slugify)
    ensures forall p :: p in LinksAfter(m0, l0, ms, k, slugify) && p !in l0 ==> p.0 in UsableUrls(ms, k) && p.0 !in m0
    decreases k
  {
    if k > 0 {
      LinksAfterNew(m0, l0, ms, k - 1, slugify);
      StoredAfterKeys(m0, ms, k - 1);
      assert UsableUrls(ms, k - 1) <= UsableUrls(ms, k);
      var r := ms[k - 1];
      if Creates(StoredAfter(m0, ms, k - 1), r) {
        assert r.url in UsableUrls(ms, k);
      }
    }
  }

  /** What a whole file does to the material tables, gathered for
      `load_materials`. */
  lemma MaterialsLoaded(m0: map<string, MaterialRecord>, l0: set<(string, string)>, g0: map<string, string>,
                        ms: seq<MaterialRow>, slugify: string -> string)
    ensures var m := StoredAfter(m0, ms, |ms|);
      && m.Keys == m0.Keys + UsableUrls(ms, |ms|)
      && CreatedMaterials(m0, ms, |ms|) == |UsableUrls(ms, |ms|) - m0.Keys|
      && |m| == |m0| + CreatedMaterials(m0, ms, |ms|)
      && (forall u :: u in m0 ==> u in m && m[u] == m0[u])
    ensures var l := LinksAfter(m0, l0, ms, |ms|, slugify);
      l0 <= l && forall p :: p in l && p !in l0 ==> p.0 !in m0
    ensures var g := TagsAfter(m0, g0, ms, |ms|, slugify);
      forall s :: s in g0 ==> s in g && g[s] == g0[s]
  {
    StoredAfterKeys(m0, ms, |ms|);
    CreatedMaterialsSize(m0, ms, |ms|);
    CreatedMaterialsCount(m0, ms, |ms|);
    StoredAfterKeeps(m0, ms, |ms|);
    TagsAfterKeeps(m0, g0, ms, |ms|, slugify);
    LinksAfterNew(m0, l0, ms, |ms|, slugify);
  }

  // ------------------------------------------------------------ catalog

  class Catalog {
    var categories: map<string, string>   // slug -> name
    var ngos: map<string, NgoRecord>      // slug -> NGO
    var tags: map<string, string>         // slug -> name
    var materials: map<string, MaterialRecord>  // url -> material
    var materialTags: set<(string, string)>     // (url, tag slug)

    constructor ()
      ensures categories == map[] && ngos == map[] && tags == map[] && materials == map[] && materialTags == {}
    {
      categories := map[];
      ngos := map[];
      tags := map[];
      materials := map[];
      materialTags := {};
    }

    /** The body of `load_ngos` for a valid row: the category is looked up
        or created, a free slug is chosen and the NGO is created under it. */
    method AddNgo(city: string, category: string, name: string, description: string, website: string,
                  slugify: string -> string) returns (slug: string)
      modifies this
      ensures slug !in old(ngos)
      ensures ngos == old(ngos)[slug := NewNgo(name, slugify(category), city, description, website)]
      ensures slugify(SlugBase(name, city)) !in old(ngos) ==> slug == slugify(SlugBase(name, city))
      ensures categories == if slugify(category) in old(categories) then old(categories)
                            else old(categories)[slugify(category) := category]
      ensures tags == old(tags) && materials == old(materials) && materialTags == old(materialTags)
    {
      var categorySlug := slugify(category);
      if categorySlug !in categories {
        categories := categories[categorySlug := category];
      }
      var base := SlugBase(name, city);
      var suffix;
      slug, suffix := UniqueSlug(slugify(base), ngos.Keys);
      ngos := ngos[slug := NewNgo(name, categorySlug, city, description, website)];
    }

    /** One row of `load_ngos`, classified as `c`: `created` when it
        creates an NGO (under `slug`), `skip` when it is counted as
        skipped. */
    method LoadNgoRow(c: RowClass, slugify: string -> string) returns (created: bool, skip: bool, slug: string)
      modifies this
      ensures created == c.NgoRow? && skip == Skipped(c)
      ensures created ==> slug !in old(ngos) && ngos == old(ngos)[slug := RowNgo(c, slugify)]
      ensures !created ==> ngos == old(ngos)
      ensures categories == CategoryStep(old(categories), c, slugify)
      ensures tags == old(tags) && materials == old(materials) && materialTags == old(materialTags)
    {
      created, skip := c.NgoRow?, Skipped(c);
      slug := "";
      if c.NgoRow? {
        slug := AddNgo(c.city, c.category, c.name, c.description, c.website, slugify);
      }
    }

    /** Every NGO of `n0` is still there unchanged, and every NGO added
        is approved. */
    ghost predicate KeepsNgos(n0: map<string, NgoRecord>)
      reads this
    {
      n0.Keys <= ngos.Keys
      && (forall s :: s in n0 ==> ngos[s] == n0[s])
      && (forall s :: s in ngos && s !in n0 ==> ngos[s].status == "approved")
    }

    /** A row step as the loop of `load_ngos` sees it. */
    method LoadNgoStep(c: RowClass, i: nat, slugify: string -> string, ghost cs: seq<RowClass>,
                       ghost n0: map<string, NgoRecord>, ghost c0: map<string, string>)
      returns (created: bool, skip: bool)
      requires i < |cs| && cs[i] == c
      requires KeepsNgos(n0) && NgosFromRows(ngos, n0, cs, i, slugify)
      requires categories == CategoriesAfter(c0, cs, i, slugify)
      modifies this
      ensures created == c.NgoRow? && skip == Skipped(c)
      ensures KeepsNgos(n0) && NgosFromRows(ngos, n0, cs, i + 1, slugify)
      ensures |ngos| == |old(ngos)| + (if created then 1 else 0)
      ensures categories == CategoriesAfter(c0, cs, i + 1, slugify)
      ensures tags == old(tags) && materials == old(materials) && materialTags == old(materialTags)
    {
      ghost var before := ngos;
      var slug;
      created, skip, slug := LoadNgoRow(c, slugify);
      NgosFromRowsStep(n0, before, ngos, cs, i, slugify, slug);
    }

    /** `load_ngos`: blank rows are passed over, short rows and rows without
        a name or a category are counted as skipped, and every other row
        creates exactly one new NGO, counted in `count`, and gets or creates
        its category. */
    method LoadNgos(rows: seq<seq<string>>, slugify: string -> string) returns (count: nat, skipped: nat)
      modifies this
      ensures count == ValidRows(rows) && skipped == SkippedRows(rows)
      ensures |ngos| == |old(ngos)| + count && KeepsNgos(old(ngos))
      ensures NgosFromRows(ngos, old(ngos), Classes(rows), |rows|, slugify)
      ensures categories == CategoriesAfter(old(categories), Classes(rows), |rows|, slugify)
      ensures tags == old(tags) && materials == old(materials) && materialTags == old(materialTags)
    {
      count, skipped := 0, 0;
      ghost var cs := Classes(rows);
      for i := 0 to |rows|
        invariant count == ValidRows(rows[..i]) && skipped == SkippedRows(rows[..i])
        invariant |ngos| == |old(ngos)| + count && KeepsNgos(old(ngos))
        invariant NgosFromRows(ngos, old(ngos), cs, i, slugify)
        invariant categories == CategoriesAfter(old(categories), cs, i, slugify)
        invariant tags == old(tags) && materials == old(materials) && materialTags == old(materialTags)
      {
        ClassAt(rows, i);
        CountsSnoc(rows, i);
        var created, skip := LoadNgoStep(ClassifyRow(rows[i]), i, slugify, cs, old(ngos), old(categories));
        if created {
          count := count + 1;
        } else if skip {
          skipped := skipped + 1;
        }
      }
      assert rows[..|rows|] == rows;
    }

    /** The tag loop for a new material: each tag is looked up or created
        by its slug and linked to the material. */
    method AttachTags(url: string, names: seq<string>, slugify: string -> string)
      modifies this
      ensures materialTags == old(materialTags) + TagLinks(url, names, slugify)
      ensures tags == GetOrCreateTags(old(tags), names, slugify)
      ensures categories == old(categories) && ngos == old(ngos) && materials == old(materials)
    {
      for k := 0 to |names|
        invariant materialTags == old(materialTags) + TagLinks(url, names[..k], slugify)
        invariant tags == GetOrCreateTags(old(tags), names[..k], slugify)
        invariant categories == old(categories) && ngos == old(ngos) && materials == old(materials)
      {
        var tagSlug := slugify(names[k]);
        LinkStep(url, names, k, slugify);
        assert names[..k + 1][..k] == names[..k];
        if tagSlug !in tags {
          tags := tags[tagSlug := names[k]];
        }
        materialTags := materialTags + {(url, tagSlug)};
      }
      assert names[..|names|] == names;
    }



    /** The materials, their tag links and the tags of `m0`, `l0` and
        `g0` are still there as they were, and links were added only for
        materials that are not in `m0`. */
    ghost predicate KeepsMaterials(m0: map<string, MaterialRecord>, l0: set<(string, string)>, g0: map<string, string>)
      reads this
    {
      (forall u :: u in m0 ==> u in materials && materials[u] == m0[u])
      && l0 <= materialTags
      && (forall p :: p in materialTags && p !in l0 ==> p.0 !in m0)
      && (forall s :: s in g0 ==> s in tags && tags[s] == g0[s])
    }

    /** One row of `load_materials`, classified as `r`: a usable row whose
        url is new creates the material and attaches its tags. */
    method LoadMaterialRow(r: MaterialRow, slugify: string -> string) returns (created: bool)
      modifies this
      ensures created == (r.MaterialRow? && r.url !in old(materials))
      ensures created ==>
        materials == old(materials)[r.url := MaterialRecord(r.title, r.course, r.author)]
        && materialTags == old(materialTags) + TagLinks(r.url, TagNames(r.tags), slugify)
        && tags == GetOrCreateTags(old(tags), TagNames(r.tags), slugify)
      ensures !created ==> materials == old(materials) && materialTags == old(materialTags) && tags == old(tags)
      ensures categories == old(categories) && ngos == old(ngos)
    {
      created := r.MaterialRow? && r.url !in materials;
      if created {
        materials := materials[r.url := MaterialRecord(r.title, r.course, r.author)];
        var names := TagNames(r.tags);
        if r.tags != "" {
          AttachTags(r.url, names, slugify);
        } else {
          EmptyTagsNone();
          assert names == [];
          assert GetOrCreateTags(tags, names, slugify) == tags;
          assert TagLinks(r.url, names, slugify) == {};
        }
      }
    }


    /** A row step as the loop of `load_materials` sees it. */
    method LoadMaterialStep(rows: seq<seq<string>>, i: nat, slugify: string -> string, ghost ms: seq<MaterialRow>,
                            ghost m0: map<string, MaterialRecord>, ghost l0: set<(string, string)>,
                            ghost g0: map<string, string>)
      returns (created: bool)
      requires i < |rows| && i < |ms| && ms[i] == ClassifyMaterial(rows[i])
      requires materials == StoredAfter(m0, ms, i) && tags == TagsAfter(m0, g0, ms, i, slugify)
      requires materialTags == LinksAfter(m0, l0, ms, i, slugify)
      modifies this
      ensures materials == StoredAfter(m0, ms, i + 1) && tags == TagsAfter(m0, g0, ms, i + 1, slugify)
      ensures materialTags == LinksAfter(m0, l0, ms, i + 1, slugify)
      ensures created == Creates(StoredAfter(m0, ms, i), ms[i])
      ensures categories == old(categories) && ngos == old(ngos)
    {
      created := LoadMaterialRow(ClassifyMaterial(rows[i]), slugify);
    }

    /** The loop of `load_materials` over the classified rows `ms`. */
    method LoadMaterialRows(rows: seq<seq<string>>, slugify: string -> string, ghost ms: seq<MaterialRow>)
      returns (count: nat)
      requires ms == MaterialClasses(rows)
      modifies this
      ensures materials == StoredAfter(old(materials), ms, |rows|)
      ensures tags == TagsAfter(old(materials), old(tags), ms, |rows|, slugify)
      ensures materialTags == LinksAfter(old(materials), old(materialTags), ms, |rows|, slugify)
      ensures count == CreatedMaterials(old(materials), ms, |rows|)
      ensures categories == old(categories) && ngos == old(ngos)
    {
      count := 0;
      for i := 0 to |rows|
        invariant materials == StoredAfter(old(materials), ms, i)
        invariant tags == TagsAfter(old(materials), old(tags), ms, i, slugify)
        invariant materialTags == LinksAfter(old(materials), old(materialTags), ms, i, slugify)
        invariant count == CreatedMaterials(old(materials), ms, i)
        invariant categories == old(categories) && ngos == old(ngos)
      {
        MaterialClassAt(rows, i);
        var created := LoadMaterialStep(rows, i, slugify, ms, old(materials), old(materialTags), old(tags));
        if created {
          count := count + 1;
        }
      }
    }

    /** `load_materials`: every row in turn; a url already known leaves the
        material and its tags as they were; `count` is the number of
        materials created. */
    method LoadMaterials(rows: seq<seq<string>>, slugify: string -> string) returns (count: nat)
      modifies this
      ensures materials == StoredAfter(old(materials), MaterialClasses(rows), |rows|)
      ensures tags == TagsAfter(old(materials), old(tags), MaterialClasses(rows), |rows|, slugify)
      ensures materialTags == LinksAfter(old(materials), old(materialTags), MaterialClasses(rows), |rows|, slugify)
      ensures count == CreatedMaterials(old(materials), MaterialClasses(rows), |rows|)
      ensures count == |UsableUrls(MaterialClasses(rows), |rows|) - old(materials).Keys|
      ensures materials.Keys == old(materials).Keys + UsableUrls(MaterialClasses(rows), |rows|)
      ensures |materials| == |old(materials)| + count
      ensures KeepsMaterials(old(materials), old(materialTags), old(tags))
      ensures categories == old(categories) && ngos == old(ngos)
    {
      ghost var ms := MaterialClasses(rows);
      count := LoadMaterialRows(rows, slugify, ms);
      MaterialsLoaded(old(materials), old(materialTags), old(tags), ms, slugify);
    }
  }
}
