/** The tag invariant: which requests keep it, and that the service admits exactly those. */
module TagLaws {
  import opened Wrappers
  import opened Model
  import VmRow
  import opened Vms
  import opened Tags

  /** A refusal is never a matter of taste: `set_vm_tags` accepts an assignment exactly when
      the tables with that assignment are sound. */
  lemma SetVmTagsExactly(s: State, v: Id, ids: seq<Id>)
    requires TagInv(s) && v in s.vms
    ensures SetVmTagsSpec(s, v, ids).result.Ok?
      <==> TagInv(s.(vms := s.vms[v := s.vms[v].(tags := Members(ids))]))
  {
    OneAssignment(s.tags, s.vms, v, s.vms[v].(tags := Members(ids)));
  }

  lemma OneAssignment(tags: map<Id, Tag>, vms: map<Id, Vm>, v: Id, row: Vm)
    requires AssignmentsSound(tags, vms)
    ensures AssignmentsSound(tags, vms[v := row]) <==> row.tags <= tags.Keys && !Crowded(tags, row.tags)
  {
    var after := vms[v := row];
    if AssignmentsSound(tags, after) {
      assert after[v].tags == row.tags;
    }
  }

  // One tag changed or added leaves the catalogue sound iff its new value fits.
  lemma CatalogueWith(categories: map<Id, string>, tags: map<Id, Tag>, t: Id, tag: Tag)
    requires CatalogueSound(categories, tags)
    requires WellNamed(tag.name) && tag.color in PALETTE
    requires tag.category.Some? ==> tag.category.value in categories
    ensures CatalogueSound(categories, tags[t := tag]) <==> !TagTaken(tags, tag.name, tag.category, Some(t))
  {
    var tags' := tags[t := tag];
    if TagTaken(tags, tag.name, tag.category, Some(t)) {
      var u :| u in tags && u != t && tags[u].category == tag.category && Folded(tags[u].name) == Folded(tag.name);
      assert u in tags' && tags'[u] == tags[u];
      assert TagTaken(tags', tags'[t].name, tags'[t].category, Some(t));
    } else {
      forall u | u in tags' ensures !TagTaken(tags', tags'[u].name, tags'[u].category, Some(u)) {
        if w :| w in tags' && w != u && tags'[w].category == tags'[u].category
                && Folded(tags'[w].name) == Folded(tags'[u].name) {
          assert false;
        }
      }
    }
  }

  // Is tag `t`, moved to where `tag` says, the second of its category on VM `v`?
  lemma CrowdedWith(tags: map<Id, Tag>, held: set<Id>, t: Id, tag: Tag)
    requires t in tags && !Crowded(tags, held)
    ensures Crowded(tags[t := tag], held)
      <==> tag.category.Some? && tag.category != tags[t].category && t in held
           && exists u :: u in held && u in tags && u != t && tags[u].category == tag.category
  {
    var after := tags[t := tag];
    if u :| u in held && u in tags && u != t && tags[u].category == tag.category {
      assert after[u] == tags[u] && after[t] == tag;
    }
  }

  // Moving a tag leaves every VM with one tag per category iff no VM already has another.
  lemma AssignmentsWith(s: State, t: Id, tag: Tag)
    requires TagInv(s) && t in s.tags
    ensures AssignmentsSound(s.tags[t := tag], s.vms)
      <==> !(tag.category.Some? && tag.category != s.tags[t].category
             && ClashingVms(s.vms, s.tags, t, tag.category.value) != {})
  {
    var clashing := if tag.category.Some? then ClashingVms(s.vms, s.tags, t, tag.category.value) else {};
    forall v | v in s.vms
      ensures Crowded(s.tags[t := tag], s.vms[v].tags)
        <==> tag.category.Some? && tag.category != s.tags[t].category && v in clashing
    {
      CrowdedWith(s.tags, s.vms[v].tags, t, tag);
    }
    if clashing != {} {
      var v :| v in clashing;
      assert v in s.vms;
    }
  }

  lemma PatchedIsWellFormed(s: State, t: Id, p: TagPatch)
    requires TagInv(s) && t in s.tags && Patched(s.tags[t], p, s.categories).Ok?
    ensures var tag := Patched(s.tags[t], p, s.categories).value;
      WellNamed(tag.name) && tag.color in PALETTE && (tag.category.Some? ==> tag.category.value in s.categories)
  {
  }

  /** A well-formed patch is accepted exactly when the tables with the patched tag are sound. */
  lemma UpdateTagExactly(s: State, t: Id, p: TagPatch)
    requires TagInv(s) && t in s.tags && Patched(s.tags[t], p, s.categories).Ok?
    ensures UpdateTagSpec(s, t, p).result.Ok?
      <==> TagInv(s.(tags := s.tags[t := Patched(s.tags[t], p, s.categories).value]))
  {
    var tag := Patched(s.tags[t], p, s.categories).value;
    PatchedIsWellFormed(s, t, p);
    CatalogueWith(s.categories, s.tags, t, tag);
    AssignmentsWith(s, t, tag);
  }

  lemma FreshTagIsUnassigned(s: State, t: Id, tag: Tag)
    requires TagInv(s) && t !in s.tags
    ensures AssignmentsSound(s.tags[t := tag], s.vms)
  {
    forall v | v in s.vms ensures !Crowded(s.tags[t := tag], s.vms[v].tags) {
      assert !Crowded(s.tags, s.vms[v].tags) && s.vms[v].tags <= s.tags.Keys;
    }
  }

  /** A well-formed new tag is accepted exactly when the catalogue with it is sound. */
  lemma CreateTagExactly(s: State, name: string, category: Option<Id>, color: string)
    requires TagInv(s) && s.nextId !in s.tags
    requires CheckName(name).Some? && color in PALETTE && (category.Some? ==> category.value in s.categories)
    ensures CreateTagSpec(s, name, category, color).result.Ok?
      <==> TagInv(s.(tags := s.tags[s.nextId := Tag(CheckName(name).value, category, color)]))
  {
    var tag := Tag(CheckName(name).value, category, color);
    CatalogueWith(s.categories, s.tags, s.nextId, tag);
    assert TagTaken(s.tags, tag.name, category, Some(s.nextId)) == TagTaken(s.tags, tag.name, category, None);
    FreshTagIsUnassigned(s, s.nextId, tag);
  }

  lemma CategoriesWith(categories: map<Id, string>, tags: map<Id, Tag>, c: Id, name: string)
    requires CatalogueSound(categories, tags) && WellNamed(name)
    ensures CatalogueSound(categories[c := name], tags) <==> !CategoryTaken(categories, name, Some(c))
  {
    var after := categories[c := name];
    if CategoryTaken(categories, name, Some(c)) {
      var d :| d in categories && d != c && Folded(categories[d]) == Folded(name);
      assert d in after && after[d] == categories[d];
      assert CategoryTaken(after, after[c], Some(c));
    } else {
      forall d | d in after ensures !CategoryTaken(after, after[d], Some(d)) {
        if e :| e in after && e != d && Folded(after[e]) == Folded(after[d]) {
          assert false;
        }
      }
    }
  }

  lemma RenameCategoryExactly(s: State, c: Id, name: string)
    requires TagInv(s) && c in s.categories && CheckName(name).Some?
    ensures RenameCategorySpec(s, c, name).result.Ok?
      <==> TagInv(s.(categories := s.categories[c := CheckName(name).value]))
  {
    CategoriesWith(s.categories, s.tags, c, CheckName(name).value);
  }

  lemma CreateCategoryExactly(s: State, name: string)
    requires TagInv(s) && s.nextId !in s.categories && CheckName(name).Some?
    ensures CreateCategorySpec(s, name).result.Ok?
      <==> TagInv(s.(categories := s.categories[s.nextId := CheckName(name).value]))
  {
    var given := CheckName(name).value;
    CategoriesWith(s.categories, s.tags, s.nextId, given);
    assert CategoryTaken(s.categories, given, Some(s.nextId)) == CategoryTaken(s.categories, given, None);
  }

  // Dropping tags from the catalogue and from every VM at once leaves nothing dangling.
  lemma WithoutTags(s: State, gone: set<Id>)
    requires TagInv(s)
    ensures TagInv(s.(tags := s.tags - gone, vms := Untagged(s.vms, gone)))
  {
    var tags, vms := s.tags - gone, Untagged(s.vms, gone);
    forall t | t in tags ensures !TagTaken(tags, tags[t].name, tags[t].category, Some(t)) {
      if TagTaken(tags, tags[t].name, tags[t].category, Some(t)) {
        assert TagTaken(s.tags, s.tags[t].name, s.tags[t].category, Some(t));
      }
    }
    forall v | v in vms ensures !Crowded(tags, vms[v].tags) {
      assert !Crowded(s.tags, s.vms[v].tags);
    }
  }

  lemma WithoutCategory(categories: map<Id, string>, tags: map<Id, Tag>, c: Id)
    requires CatalogueSound(categories, tags)
    requires forall t :: t in tags ==> tags[t].category != Some(c)
    ensures CatalogueSound(categories - {c}, tags)
  {
    var after := categories - {c};
    forall d | d in after ensures !CategoryTaken(after, after[d], Some(d)) {
      if CategoryTaken(after, after[d], Some(d)) { assert CategoryTaken(categories, categories[d], Some(d)); }
    }
  }

  /** Deleting a tag keeps the tables sound and takes that tag, and no other, off every VM. */
  lemma TagDeletionCascades(s: State, t: Id)
    requires TagInv(s)
    ensures TagInv(DeleteTagSpec(s, t).state)
    ensures t in s.tags ==> forall v :: v in s.vms ==>
      v in DeleteTagSpec(s, t).state.vms && DeleteTagSpec(s, t).state.vms[v] == s.vms[v].(tags := s.vms[v].tags - {t})
  {
    if t in s.tags { WithoutTags(s, {t}); }
  }

  lemma CategoryDeletionSound(s: State, c: Id)
    requires TagInv(s)
    ensures TagInv(DeleteCategorySpec(s, c).state)
  {
    if c in s.categories {
      WithoutTags(s, TagsOf(s.tags, c));
      WithoutCategory(s.categories, s.tags - TagsOf(s.tags, c), c);
    }
  }

  /** Deleting a category keeps the tables sound and takes exactly its tags off every VM. */
  lemma CategoryDeletionCascades(s: State, c: Id, v: Id, u: Id)
    requires TagInv(s) && c in s.categories && v in s.vms && u in s.tags
    ensures var s' := DeleteCategorySpec(s, c).state;
      TagInv(s') && v in s'.vms && (u in s'.vms[v].tags <==> u in s.vms[v].tags && s.tags[u].category != Some(c))
  {
    CategoryDeletionSound(s, c);
  }

  // ---- the operations together -----------------------------------------------------------------

  datatype TagRequest =
    | CreateCategory(name: string)
    | RenameCategory(category: Id, name: string)
    | DeleteCategory(category: Id)
    | CreateTag(name: string, parent: Option<Id>, color: string)
    | UpdateTag(tag: Id, patch: TagPatch)
    | DeleteTag(tag: Id)
    | SetVmTags(vm: Id, ids: seq<Id>)

  function TagSpec(s: State, r: TagRequest): Reply {
    match r
    case CreateCategory(name) => CreateCategorySpec(s, name)
    case RenameCategory(c, name) => RenameCategorySpec(s, c, name)
    case DeleteCategory(c) => DeleteCategorySpec(s, c)
    case CreateTag(name, c, color) => CreateTagSpec(s, name, c, color)
    case UpdateTag(t, p) => UpdateTagSpec(s, t, p)
    case DeleteTag(t) => DeleteTagSpec(s, t)
    case SetVmTags(v, ids) => SetVmTagsSpec(s, v, ids)
  }

  /** Every tag request keeps the tag invariant; a refused one changes nothing. */
  lemma TagRequestsKeepTagInv(s: State, r: TagRequest)
    requires TagInv(s) && s.nextId !in s.tags && s.nextId !in s.categories
    ensures TagInv(TagSpec(s, r).state)
    ensures TagSpec(s, r).result.Err? ==> TagSpec(s, r).state == s
  {
    match r
    case CreateCategory(name) => if CheckName(name).Some? { CreateCategoryExactly(s, name); }
    case RenameCategory(c, name) => if c in s.categories && CheckName(name).Some? { RenameCategoryExactly(s, c, name); }
    case DeleteCategory(c) => CategoryDeletionSound(s, c);
    case CreateTag(name, c, color) =>
      if CreateTagSpec(s, name, c, color).result.Ok? { CreateTagExactly(s, name, c, color); }
    case UpdateTag(t, p) =>
      if UpdateTagSpec(s, t, p).result.Ok? { UpdateTagExactly(s, t, p); }
    case DeleteTag(t) => TagDeletionCascades(s, t);
    case SetVmTags(v, ids) => if v in s.vms { SetVmTagsExactly(s, v, ids); }
  }

  /** Any change of the VM table that only drops rows, adds untagged ones or leaves the tags
      of a row alone keeps the tag invariant. */
  lemma TagsUntouched(s: State, s': State)
    requires TagInv(s) && s'.tags == s.tags && s'.categories == s.categories
    requires forall v :: v in s'.vms ==> s'.vms[v].tags == {} || (v in s.vms && s'.vms[v].tags == s.vms[v].tags)
    ensures TagInv(s')
  {
    forall v | v in s'.vms ensures s'.vms[v].tags <= s'.tags.Keys && !Crowded(s'.tags, s'.vms[v].tags) {
    }
  }
}
