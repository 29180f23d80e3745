/** What accepted tag requests leave, and what the tag invariant says in plain terms. */
module TagEffects {
  import opened Wrappers
  import opened Model
  import VmRow
  import Placement
  import opened Vms
  import opened Tags
  import opened TagLaws
  import opened RowContents
  import opened RowContentsLaws

  // ---- names and colours --------------------------------------------------------------------

  predicate TagChar(c: char) {
    'a' <= c <= 'z' || 'A' <= c <= 'Z' || '0' <= c <= '9' || c == '_' || c == '-'
  }

  predicate NameOk(name: string) {
    1 <= |name| <= 64 && forall i :: 0 <= i < |name| ==> TagChar(name[i])
  }

  /** The name a request ends up with: what it gave, without the blanks around it. */
  ghost predicate NameFrom(given: string, name: string) {
    TrimmedTo(given, name) && NameOk(name)
  }

  predicate UsableColor(c: string) {
    c == "gray" || c == "red" || c == "orange" || c == "yellow" || c == "green"
    || c == "teal" || c == "blue" || c == "navy" || c == "purple" || c == "pink"
  }

  /** Letter for letter the same, but for the case of a letter. */
  predicate SameIgnoringCase(a: string, b: string) {
    |a| == |b| && forall i :: 0 <= i < |a| ==> SameLetter(a[i], b[i])
  }

  predicate SameLetter(c: char, d: char) {
    || c == d
    || ('A' <= c <= 'Z' && 'a' <= d <= 'z' && c - 'A' == d - 'a')
    || ('a' <= c <= 'z' && 'A' <= d <= 'Z' && c - 'a' == d - 'A')
  }

  lemma FoldedLetter(c: char, d: char)
    ensures Placement.Lower(c) == Placement.Lower(d) <==> SameLetter(c, d)
  {
  }

  lemma FoldedMeans(a: string, b: string)
    ensures Folded(a) == Folded(b) <==> SameIgnoringCase(a, b)
  {
    if |a| == |b| {
      forall i | 0 <= i < |a| ensures Folded(a)[i] == Folded(b)[i] <==> SameLetter(a[i], b[i]) { FoldedLetter(a[i], b[i]); }
      if Folded(a) == Folded(b) {
        forall i | 0 <= i < |a| ensures SameLetter(a[i], b[i]) { assert Folded(a)[i] == Folded(b)[i]; }
      }
    } else {
      assert |Folded(a)| == |a| && |Folded(b)| == |b|;
    }
  }

  lemma WellNamedMeans(name: string)
    ensures WellNamed(name) <==> NameOk(name)
  {
    if WellNamed(name) {
      forall i | 0 <= i < |name| ensures TagChar(name[i]) { assert name[i] in name; }
    }
  }

  // Where a trimmed text starts and ends.
  lemma TrimEnds(s: string, t: string, before: string, after: string, i: nat)
    requires s == before + t + after && t != "" && !VmRow.Blank(t[0]) && !VmRow.Blank(t[|t| - 1])
    requires AllBlank(before) && AllBlank(after) && i < |s|
    ensures !VmRow.Blank(s[i]) ==> |before| <= i < |before| + |t|
    ensures !VmRow.Blank(s[|before|]) && !VmRow.Blank(s[|before| + |t| - 1])
  {
    assert i < |before| ==> s[i] == before[i] && before[i] in before;
    assert i >= |before| + |t| ==> s[i] == after[i - |before| - |t|] && after[i - |before| - |t|] in after;
    assert s[|before|] == t[0] && s[|before| + |t| - 1] == t[|t| - 1];
  }

  lemma TrimsAlign(s: string, t: string, u: string, b1: string, a1: string, b2: string, a2: string)
    requires s == b1 + t + a1 && t != "" && !VmRow.Blank(t[0]) && !VmRow.Blank(t[|t| - 1])
    requires s == b2 + u + a2 && u != "" && !VmRow.Blank(u[0]) && !VmRow.Blank(u[|u| - 1])
    requires AllBlank(b1) && AllBlank(a1) && AllBlank(b2) && AllBlank(a2)
    ensures |b1| <= |b2| && |b2| + |u| <= |b1| + |t|
  {
    TrimEnds(s, u, b2, a2, |b2|);
    TrimEnds(s, t, b1, a1, |b2|);
    TrimEnds(s, t, b1, a1, |b2| + |u| - 1);
  }

  lemma TrimIsUnique(s: string, t: string, u: string)
    requires TrimmedTo(s, t) && TrimmedTo(s, u) && t != "" && u != ""
    ensures t == u
  {
    var b1, a1 :| s == b1 + t + a1 && AllBlank(b1) && AllBlank(a1);
    var b2, a2 :| s == b2 + u + a2 && AllBlank(b2) && AllBlank(a2);
    TrimsAlign(s, t, u, b1, a1, b2, a2);
    TrimsAlign(s, u, t, b2, a2, b1, a1);
    assert t == s[|b1|..|b1| + |t|] && u == s[|b2|..|b2| + |u|];
  }

  /** A name is accepted exactly when, trimmed, it is 1 to 64 letters, digits, '_' and '-'. */
  lemma CheckNameExactly(given: string, name: string)
    ensures CheckName(given) == Some(name) <==> NameFrom(given, name)
  {
    var t := VmRow.Strip(given);
    StripTrims(given);
    WellNamedMeans(t);
    if NameFrom(given, name) {
      if t == "" { BlankHasNoName(given, name); } else { TrimIsUnique(given, name, t); }
    }
  }

  lemma InnerBlank(s: string, before: string, t: string, after: string)
    requires AllBlank(s) && s == before + t + after
    ensures forall i :: 0 <= i < |t| ==> VmRow.Blank(t[i])
  {
    forall i | 0 <= i < |t| ensures VmRow.Blank(t[i]) { assert s[|before| + i] == t[i] && t[i] in s; }
  }

  lemma BlankHasNoName(given: string, name: string)
    requires AllBlank(given) && TrimmedTo(given, name)
    ensures name == ""
  {
    var before, after :| given == before + name + after && AllBlank(before) && AllBlank(after);
    InnerBlank(given, before, name, after);
  }

  lemma PaletteIs(c: string)
    ensures c in PALETTE <==> UsableColor(c)
  {
  }

  // ---- the invariant, plainly ---------------------------------------------------------------------

  ghost predicate CategoryTidy(categories: map<Id, string>, c: Id)
    requires c in categories
  {
    NameOk(categories[c]) && forall d :: d in categories && d != c ==> !SameIgnoringCase(categories[d], categories[c])
  }

  ghost predicate TagTidy(categories: map<Id, string>, tags: map<Id, Tag>, t: Id)
    requires t in tags
  {
    && NameOk(tags[t].name) && UsableColor(tags[t].color)
    && (tags[t].category.Some? ==> tags[t].category.value in categories)
    && forall u :: u in tags && u != t && tags[u].category == tags[t].category ==> !SameIgnoringCase(tags[u].name, tags[t].name)
  }

  ghost predicate Assorted(tags: map<Id, Tag>, held: set<Id>) {
    forall t :: t in held ==> t in tags && (tags[t].category.Some? ==> OnlyOne(tags, held, t))
  }

  ghost predicate OnlyOne(tags: map<Id, Tag>, held: set<Id>, t: Id)
    requires t in tags
  {
    forall u :: u in held && u in tags && tags[u].category == tags[t].category ==> u == t
  }

  /** Names are in form and, within a category, differ by more than case; colours are in the
      palette, categories exist, and a VM has existing tags, at most one of each category. */
  ghost predicate Tidy(s: State) {
    && (forall c :: c in s.categories ==> CategoryTidy(s.categories, c))
    && (forall t :: t in s.tags ==> TagTidy(s.categories, s.tags, t))
    && (forall v :: v in s.vms ==> Assorted(s.tags, s.vms[v].tags))
  }

  lemma CategoryMeans(categories: map<Id, string>, c: Id)
    requires c in categories
    ensures WellNamed(categories[c]) && !CategoryTaken(categories, categories[c], Some(c)) <==> CategoryTidy(categories, c)
  {
    WellNamedMeans(categories[c]);
    forall d | d in categories
      ensures Folded(categories[d]) == Folded(categories[c]) <==> SameIgnoringCase(categories[d], categories[c])
    {
      FoldedMeans(categories[d], categories[c]);
    }
  }

  lemma TagTakenMeans(tags: map<Id, Tag>, t: Id)
    requires t in tags
    ensures TagTaken(tags, tags[t].name, tags[t].category, Some(t))
      <==> exists u :: u in tags && u != t && tags[u].category == tags[t].category && SameIgnoringCase(tags[u].name, tags[t].name)
  {
    forall u | u in tags
      ensures Folded(tags[u].name) == Folded(tags[t].name) <==> SameIgnoringCase(tags[u].name, tags[t].name)
    {
      FoldedMeans(tags[u].name, tags[t].name);
    }
  }

  ghost predicate TagGood(categories: map<Id, string>, tags: map<Id, Tag>, t: Id)
    requires t in tags
  {
    && WellNamed(tags[t].name) && tags[t].color in PALETTE
    && (tags[t].category.Some? ==> tags[t].category.value in categories)
    && !TagTaken(tags, tags[t].name, tags[t].category, Some(t))
  }

  lemma TagMeans(categories: map<Id, string>, tags: map<Id, Tag>, t: Id)
    requires t in tags
    ensures TagGood(categories, tags, t) <==> TagTidy(categories, tags, t)
  {
    WellNamedMeans(tags[t].name);
    PaletteIs(tags[t].color);
    TagTakenMeans(tags, t);
  }

  lemma AssortedMeans(tags: map<Id, Tag>, held: set<Id>)
    ensures held <= tags.Keys && !Crowded(tags, held) <==> Assorted(tags, held)
  {
    if Assorted(tags, held) {
      forall a, b | a in held && b in held && a in tags && b in tags
                    && tags[a].category.Some? && tags[a].category == tags[b].category
        ensures a == b
      {
        assert OnlyOne(tags, held, a);
      }
    }
  }

  lemma CatalogueMeans(categories: map<Id, string>, tags: map<Id, Tag>)
    ensures CatalogueSound(categories, tags)
      <==> && (forall c :: c in categories ==> CategoryTidy(categories, c))
           && (forall t :: t in tags ==> TagTidy(categories, tags, t))
  {
    forall c | c in categories
      ensures WellNamed(categories[c]) && !CategoryTaken(categories, categories[c], Some(c)) <==> CategoryTidy(categories, c)
    {
      CategoryMeans(categories, c);
    }
    forall t | t in tags ensures TagGood(categories, tags, t) <==> TagTidy(categories, tags, t) { TagMeans(categories, tags, t); }
  }

  /** The tag invariant says just that. */
  lemma TagInvMeans(s: State)
    ensures TagInv(s) <==> Tidy(s)
  {
    CatalogueMeans(s.categories, s.tags);
    forall v | v in s.vms
      ensures s.vms[v].tags <= s.tags.Keys && !Crowded(s.tags, s.vms[v].tags) <==> Assorted(s.tags, s.vms[v].tags)
    {
      AssortedMeans(s.tags, s.vms[v].tags);
    }
  }

  // ---- what an accepted request leaves ------------------------------------------------------------

  /** The VM has exactly the requested tags, each once; nothing else changes. */
  lemma SetVmTagsLeaves(s: State, v: Id, ids: seq<Id>)
    requires SetVmTagsSpec(s, v, ids).result.Ok?
    ensures v in s.vms
    ensures SetVmTagsSpec(s, v, ids).state == s.(vms := s.vms[v := s.vms[v].(tags := set t | t in ids)])
  {
  }

  /** The tag has the new name, category and colour where the request gives them, and the old
      ones where it does not; no other tag, and no VM, changes. */
  lemma UpdateTagLeaves(s: State, t: Id, p: TagPatch) returns (name: string)
    requires UpdateTagSpec(s, t, p).result.Ok?
    ensures t in s.tags && if p.name.Some? then NameFrom(p.name.value, name) else name == s.tags[t].name
    ensures UpdateTagSpec(s, t, p).state == s.(tags := s.tags[t := Tag(
      name,
      if p.category.Some? then p.category.value else s.tags[t].category,
      if p.color.Some? then p.color.value else s.tags[t].color)])
  {
    name := if p.name.Some? then CheckName(p.name.value).value else s.tags[t].name;
    if p.name.Some? { CheckNameExactly(p.name.value, name); }
  }

  /** One tag is added, as requested. */
  lemma CreateTagLeaves(s: State, given: string, category: Option<Id>, color: string) returns (t: Id, name: string)
    requires CreateTagSpec(s, given, category, color).result.Ok?
    ensures NameFrom(given, name) && t == s.nextId && CreateTagSpec(s, given, category, color).result == Ok(t)
    ensures CreateTagSpec(s, given, category, color).state
      == s.(nextId := t + 1, tags := s.tags[t := Tag(name, category, color)])
  {
    t, name := s.nextId, CheckName(given).value;
    CheckNameExactly(given, name);
  }

  /** The category has the new name; nothing else changes. */
  lemma RenameCategoryLeaves(s: State, c: Id, given: string) returns (name: string)
    requires RenameCategorySpec(s, c, given).result.Ok?
    ensures c in s.categories && NameFrom(given, name)
    ensures RenameCategorySpec(s, c, given).state == s.(categories := s.categories[c := name])
  {
    name := CheckName(given).value;
    CheckNameExactly(given, name);
  }

  /** One category is added. */
  lemma CreateCategoryLeaves(s: State, given: string) returns (c: Id, name: string)
    requires CreateCategorySpec(s, given).result.Ok?
    ensures NameFrom(given, name) && c == s.nextId && CreateCategorySpec(s, given).result == Ok(c)
    ensures CreateCategorySpec(s, given).state == s.(nextId := c + 1, categories := s.categories[c := name])
  {
    c, name := s.nextId, CheckName(given).value;
    CheckNameExactly(given, name);
  }

  /** A deleted tag is gone from the catalogue. */
  lemma TagDeletionLeaves(s: State, t: Id)
    requires t in s.tags
    ensures var s' := DeleteTagSpec(s, t).state;
      s'.tags == (map u | u in s.tags && u != t :: s.tags[u]) && s' == s.(tags := s'.tags, vms := s'.vms)
  {
  }

  /** So is a deleted category, with its tags. */
  lemma CategoryDeletionLeaves(s: State, c: Id)
    requires c in s.categories
    ensures var s' := DeleteCategorySpec(s, c).state;
      && s'.categories == (map d | d in s.categories && d != c :: s.categories[d])
      && s'.tags == (map u | u in s.tags && s.tags[u].category != Some(c) :: s.tags[u])
      && s' == s.(categories := s'.categories, tags := s'.tags, vms := s'.vms)
  {
  }
}
