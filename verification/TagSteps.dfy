/** Tag requests keep the tables sound. */
module TagSteps {
  import opened Wrappers
  import opened Model
  import opened Vms
  import opened Tags
  import opened TagLaws
  import opened Invariants
  import opened RowSteps
  import opened LedgerSteps

  // ---- tags --------------------------------------------------------------------------------

  // A tag request touches the catalogue and the tags of rows, and no id but the next.
  ghost predicate OnlyTagsChange(s: State, s': State) {
    && s' == s.(tags := s'.tags, categories := s'.categories, vms := s'.vms, nextId := s'.nextId)
    && s'.vms.Keys == s.vms.Keys && (forall v :: v in s.vms ==> s'.vms[v] == s.vms[v].(tags := s'.vms[v].tags))
    && s.nextId <= s'.nextId
    && NewOnly(s.tags.Keys, s'.tags.Keys, s'.nextId) && NewOnly(s.categories.Keys, s'.categories.Keys, s'.nextId)
  }

  lemma UntaggedRows(vms: map<Id, Vm>, gone: set<Id>)
    ensures var after := Untagged(vms, gone);
      after.Keys == vms.Keys && forall v :: v in vms ==> after[v] == vms[v].(tags := after[v].tags)
  {
  }

  lemma CatalogueChanged(s: State, s': State)
    requires s' == s.(tags := s'.tags, categories := s'.categories, nextId := s'.nextId) && s.nextId <= s'.nextId
    requires s'.tags.Keys <= s.tags.Keys + {s.nextId} && s'.categories.Keys <= s.categories.Keys + {s.nextId}
    requires s'.nextId > s.nextId || (s'.tags.Keys <= s.tags.Keys && s'.categories.Keys <= s.categories.Keys)
    ensures OnlyTagsChange(s, s')
  {
  }

  lemma TagsDropped(s: State, s': State, gone: set<Id>)
    requires s' == s.(tags := s'.tags, categories := s'.categories, vms := Untagged(s.vms, gone))
    requires s'.tags.Keys <= s.tags.Keys && s'.categories.Keys <= s.categories.Keys
    ensures OnlyTagsChange(s, s')
  {
    UntaggedRows(s.vms, gone);
  }

  lemma RowRetagged(s: State, s': State, v: Id, tags: set<Id>)
    requires v in s.vms && s' == s.(vms := s.vms[v := s.vms[v].(tags := tags)])
    ensures OnlyTagsChange(s, s')
  {
  }

  lemma CategoriesChange(s: State, c: Id, name: string)
    ensures CreateCategorySpec(s, name).result.Ok? ==> OnlyTagsChange(s, CreateCategorySpec(s, name).state)
    ensures RenameCategorySpec(s, c, name).result.Ok? ==> OnlyTagsChange(s, RenameCategorySpec(s, c, name).state)
  {
    if CreateCategorySpec(s, name).result.Ok? { CatalogueChanged(s, CreateCategorySpec(s, name).state); }
    if RenameCategorySpec(s, c, name).result.Ok? { CatalogueChanged(s, RenameCategorySpec(s, c, name).state); }
  }

  lemma TagAdded(s: State, name: string, parent: Option<Id>, color: string)
    requires CreateTagSpec(s, name, parent, color).result.Ok?
    ensures OnlyTagsChange(s, CreateTagSpec(s, name, parent, color).state)
  {
    CatalogueChanged(s, CreateTagSpec(s, name, parent, color).state);
  }

  lemma TagChanged(s: State, t: Id, p: TagPatch)
    requires UpdateTagSpec(s, t, p).result.Ok?
    ensures OnlyTagsChange(s, UpdateTagSpec(s, t, p).state)
  {
    CatalogueChanged(s, UpdateTagSpec(s, t, p).state);
  }

  lemma DeletionsChange(s: State, c: Id, t: Id)
    ensures DeleteCategorySpec(s, c).result.Ok? ==> OnlyTagsChange(s, DeleteCategorySpec(s, c).state)
    ensures DeleteTagSpec(s, t).result.Ok? ==> OnlyTagsChange(s, DeleteTagSpec(s, t).state)
  {
    if DeleteCategorySpec(s, c).result.Ok? { TagsDropped(s, DeleteCategorySpec(s, c).state, TagsOf(s.tags, c)); }
    if DeleteTagSpec(s, t).result.Ok? { TagsDropped(s, DeleteTagSpec(s, t).state, {t}); }
  }

  lemma AssignmentChanges(s: State, v: Id, ids: seq<Id>)
    ensures SetVmTagsSpec(s, v, ids).result.Ok? ==> OnlyTagsChange(s, SetVmTagsSpec(s, v, ids).state)
  {
    if SetVmTagsSpec(s, v, ids).result.Ok? { RowRetagged(s, SetVmTagsSpec(s, v, ids).state, v, Members(ids)); }
  }

  lemma TaggingChangesTags(s: State, r: TagRequest)
    requires TagSpec(s, r).result.Ok?
    ensures OnlyTagsChange(s, TagSpec(s, r).state)
  {
    match r
    case CreateCategory(name) => CategoriesChange(s, 0, name);
    case RenameCategory(c, name) => CategoriesChange(s, c, name);
    case DeleteCategory(c) => DeletionsChange(s, c, 0);
    case CreateTag(name, c, color) => TagAdded(s, name, c, color);
    case UpdateTag(t, p) => TagChanged(s, t, p);
    case DeleteTag(t) => DeletionsChange(s, 0, t);
    case SetVmTags(v, ids) => AssignmentChanges(s, v, ids);
  }

  lemma RetaggedPlaces(s: State, s': State)
    requires Sound(s) && OnlyTagsChange(s, s')
    ensures Keeps(Places, s')
  {
    assert Holds(Places, s);
    assert PlacesSound(s');
  }

  lemma RetaggedGuids(s: State, s': State)
    requires Sound(s) && OnlyTagsChange(s, s')
    ensures Keeps(Guids, s')
  {
    assert Holds(Guids, s);
    forall a, b | a in s'.vms && b in s'.vms && a != b && s'.vms[a].guid.Some? && s'.vms[a].guid == s'.vms[b].guid
      ensures !SameScope(s'.vms[a], s'.vms[b])
    {
      assert !SameScope(s.vms[a], s.vms[b]);
    }
    UniqueIsKept(s');
  }

  lemma RetaggedLabels(s: State, r: TagRequest)
    requires Sound(s)
    ensures Keeps(Labels, TagSpec(s, r).state)
  {
    assert Holds(Labels, s);
    NewIdIsNew(s);
    TagRequestsKeepTagInv(s, r);
  }

  lemma TaggingSound(s: State, r: TagRequest)
    requires Sound(s)
    ensures Sound(TagSpec(s, r).state)
  {
    var s' := TagSpec(s, r).state;
    RetaggedLabels(s, r);
    if TagSpec(s, r).result.Ok? {
      TaggingChangesTags(s, r);
      Retagged(s, s');
    } else {
      RefusedTagging(s, r);
    }
  }

  lemma RefusedTagging(s: State, r: TagRequest)
    requires Sound(s) && TagSpec(s, r).result.Err?
    ensures TagSpec(s, r).state == s
  {
    assert Holds(Labels, s);
    NewIdIsNew(s);
    TagRequestsKeepTagInv(s, r);
  }

  lemma Retagged(s: State, s': State)
    requires Sound(s) && OnlyTagsChange(s, s') && Keeps(Labels, s')
    ensures Sound(s')
  {
    RetaggedPlaces(s, s');
    RetaggedGuids(s, s');
    assert IdsGrow(s, s');
    IdsCarryOver(s, s');
    PlainEventsKeepLedger(s, s');
    Assemble(s');
  }
}
