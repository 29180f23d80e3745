/** Tags and tag categories: the catalogue and the VM assignments (app/services/tags.py). */
module Tags {
  import opened Wrappers
  import opened Model
  import VmRow
  import Placement
  import opened Vms

  const NAME_MAX := 64
  const PALETTE := {"gray", "red", "orange", "yellow", "green", "teal", "blue", "navy", "purple", "pink"}

  predicate NameChar(c: char) {
    'A' <= c <= 'Z' || 'a' <= c <= 'z' || '0' <= c <= '9' || c == '_' || c == '-'
  }

  predicate WellNamed(name: string) {
    0 < |name| <= NAME_MAX && forall c :: c in name ==> NameChar(c)
  }

  /** Names compare in lower case. */
  function Folded(name: string): string {
    seq(|name|, i requires 0 <= i < |name| => Placement.Lower(name[i]))
  }

  /** The trimmed name, when it is one. */
  function CheckName(name: string): Option<string> {
    if WellNamed(VmRow.Strip(name)) then Some(VmRow.Strip(name)) else None
  }

  // ---- what the tables promise -----------------------------------------------------------

  predicate CategoryTaken(categories: map<Id, string>, name: string, exclude: Option<Id>) {
    exists c :: c in categories && Some(c) != exclude && Folded(categories[c]) == Folded(name)
  }

  predicate TagTaken(tags: map<Id, Tag>, name: string, category: Option<Id>, exclude: Option<Id>) {
    exists t :: t in tags && Some(t) != exclude && tags[t].category == category && Folded(tags[t].name) == Folded(name)
  }

  /** Two tags of one category among `held`. */
  predicate Crowded(tags: map<Id, Tag>, held: set<Id>) {
    exists a, b :: a in held && b in held && a in tags && b in tags && a != b
                && tags[a].category.Some? && tags[a].category == tags[b].category
  }

  ghost predicate CatalogueSound(categories: map<Id, string>, tags: map<Id, Tag>) {
    && (forall c :: c in categories ==> WellNamed(categories[c]) && !CategoryTaken(categories, categories[c], Some(c)))
    && (forall t :: t in tags ==>
          && WellNamed(tags[t].name) && tags[t].color in PALETTE
          && (tags[t].category.Some? ==> tags[t].category.value in categories)
          && !TagTaken(tags, tags[t].name, tags[t].category, Some(t)))
  }

  ghost predicate AssignmentsSound(tags: map<Id, Tag>, vms: map<Id, Vm>) {
    forall v :: v in vms ==> vms[v].tags <= tags.Keys && !Crowded(tags, vms[v].tags)
  }

  /** Names unique whatever their case, no dangling reference, one tag per category on a VM. */
  ghost predicate TagInv(s: State) {
    CatalogueSound(s.categories, s.tags) && AssignmentsSound(s.tags, s.vms)
  }

  // ---- categories ----------------------------------------------------------------------------

  function CreateCategorySpec(s: State, name: string): Reply {
    var checked := CheckName(name);
    if checked.None? then Reply(s, Err(Invalid))
    else if CategoryTaken(s.categories, checked.value, None) then Reply(s, Err(Duplicate))
    else Reply(s.(nextId := s.nextId + 1, categories := s.categories[s.nextId := checked.value]), Ok(s.nextId))
  }

  method CreateCategory(db: Database, ghost cache: Cache, ghost cfg: Settings, ghost now: Time, name: string)
    returns (result: Result<Id, Error>)
    modifies db`nextId, db`categories
    ensures Reply(Snap(db, cache, cfg, now), result) == CreateCategorySpec(old(Snap(db, cache, cfg, now)), name)
  {
    var checked := CheckName(name);
    if checked.None? { return Err(Invalid); }
    if CategoryTaken(db.categories, checked.value, None) { return Err(Duplicate); }
    var c := db.NewId();
    db.categories := db.categories[c := checked.value];
    return Ok(c);
  }

  function RenameCategorySpec(s: State, c: Id, name: string): Reply {
    var checked := CheckName(name);
    if c !in s.categories then Reply(s, Err(NotFound))
    else if checked.None? then Reply(s, Err(Invalid))
    else if CategoryTaken(s.categories, checked.value, Some(c)) then Reply(s, Err(Duplicate))
    else Reply(s.(categories := s.categories[c := checked.value]), Ok(c))
  }

  method RenameCategory(db: Database, ghost cache: Cache, ghost cfg: Settings, ghost now: Time, c: Id, name: string)
    returns (result: Result<Id, Error>)
    modifies db`categories
    ensures Reply(Snap(db, cache, cfg, now), result) == RenameCategorySpec(old(Snap(db, cache, cfg, now)), c, name)
  {
    if c !in db.categories { return Err(NotFound); }
    var checked := CheckName(name);
    if checked.None? { return Err(Invalid); }
    if CategoryTaken(db.categories, checked.value, Some(c)) { return Err(Duplicate); }
    db.categories := db.categories[c := checked.value];
    return Ok(c);
  }

  function TagsOf(tags: map<Id, Tag>, c: Id): set<Id> {
    set t | t in tags && tags[t].category == Some(c)
  }

  /** ON DELETE CASCADE of vm_tags.tag_id. */
  function Untagged(vms: map<Id, Vm>, gone: set<Id>): map<Id, Vm> {
    map v | v in vms :: vms[v].(tags := vms[v].tags - gone)
  }

  function DeleteCategorySpec(s: State, c: Id): Reply {
    if c !in s.categories then Reply(s, Err(NotFound))
    else
      var gone := TagsOf(s.tags, c);
      Reply(s.(categories := s.categories - {c}, tags := s.tags - gone, vms := Untagged(s.vms, gone)), Ok(c))
  }

  method DeleteCategory(db: Database, ghost cache: Cache, ghost cfg: Settings, ghost now: Time, c: Id)
    returns (result: Result<Id, Error>)
    modifies db`categories, db`tags, db`vms
    ensures Reply(Snap(db, cache, cfg, now), result) == DeleteCategorySpec(old(Snap(db, cache, cfg, now)), c)
  {
    if c !in db.categories { return Err(NotFound); }
    var gone := TagsOf(db.tags, c);
    db.vms := Untagged(db.vms, gone);
    db.categories, db.tags := db.categories - {c}, db.tags - gone;
    return Ok(c);
  }

  // ---- tags ------------------------------------------------------------------------------------

  function CreateTagSpec(s: State, name: string, category: Option<Id>, color: string): Reply {
    var checked := CheckName(name);
    if checked.None? || color !in PALETTE then Reply(s, Err(Invalid))
    else if category.Some? && category.value !in s.categories then Reply(s, Err(NotFound))
    else if TagTaken(s.tags, checked.value, category, None) then Reply(s, Err(Duplicate))
    else Reply(s.(nextId := s.nextId + 1, tags := s.tags[s.nextId := Tag(checked.value, category, color)]), Ok(s.nextId))
  }

  method CreateTag(db: Database, ghost cache: Cache, ghost cfg: Settings, ghost now: Time,
                   name: string, category: Option<Id>, color: string)
    returns (result: Result<Id, Error>)
    modifies db`nextId, db`tags
    ensures Reply(Snap(db, cache, cfg, now), result) == CreateTagSpec(old(Snap(db, cache, cfg, now)), name, category, color)
  {
    var checked := CheckName(name);
    if checked.None? { return Err(Invalid); }
    if color !in PALETTE { return Err(Invalid); }
    if category.Some? && category.value !in db.categories { return Err(NotFound); }
    if TagTaken(db.tags, checked.value, category, None) { return Err(Duplicate); }
    var t := db.NewId();
    db.tags := db.tags[t := Tag(checked.value, category, color)];
    return Ok(t);
  }

  // What a PATCH asks for; `category` is Some(None) for "make it standalone".
  datatype TagPatch = TagPatch(name: Option<string>, category: Option<Option<Id>>, color: Option<string>)

  /** The tag as the patch would leave it, or the reason the patch makes no sense. */
  function Patched(tag: Tag, p: TagPatch, categories: map<Id, string>): Result<Tag, Error> {
    var name := if p.name.Some? then CheckName(p.name.value) else Some(tag.name);
    var color := if p.color.Some? then p.color.value else tag.color;
    var category := if p.category.Some? then p.category.value else tag.category;
    if name.None? then Err(Invalid)
    else if p.color.Some? && color !in PALETTE then Err(Invalid)
    else if category.Some? && category.value !in categories then Err(NotFound)
    else Ok(Tag(name.value, category, color))
  }

  /** VMs that carry this tag and another one of category `c`. */
  function ClashingVms(vms: map<Id, Vm>, tags: map<Id, Tag>, t: Id, c: Id): set<Id> {
    set v | v in vms && t in vms[v].tags
         && exists u :: u in vms[v].tags && u in tags && u != t && tags[u].category == Some(c)
  }

  function UpdateTagSpec(s: State, t: Id, p: TagPatch): Reply {
    if t !in s.tags then Reply(s, Err(NotFound))
    else
      var tag := Patched(s.tags[t], p, s.categories);
      if tag.Err? then Reply(s, Err(tag.error))
      else if TagTaken(s.tags, tag.value.name, tag.value.category, Some(t)) then Reply(s, Err(Duplicate))
      else if tag.value.category.Some? && tag.value.category != s.tags[t].category
           && ClashingVms(s.vms, s.tags, t, tag.value.category.value) != {} then Reply(s, Err(TagConflict))
      else Reply(s.(tags := s.tags[t := tag.value]), Ok(t))
  }

  method UpdateTag(db: Database, ghost cache: Cache, ghost cfg: Settings, ghost now: Time, t: Id, p: TagPatch)
    returns (result: Result<Id, Error>)
    modifies db`tags
    ensures Reply(Snap(db, cache, cfg, now), result) == UpdateTagSpec(old(Snap(db, cache, cfg, now)), t, p)
  {
    if t !in db.tags { return Err(NotFound); }
    var tag := db.tags[t];
    if p.name.Some? {
      var checked := CheckName(p.name.value);
      if checked.None? { return Err(Invalid); }
      tag := tag.(name := checked.value);
    }
    if p.color.Some? {
      if p.color.value !in PALETTE { return Err(Invalid); }
      tag := tag.(color := p.color.value);
    }
    if p.category.Some? {
      tag := tag.(category := p.category.value);
    }
    if tag.category.Some? && tag.category.value !in db.categories { return Err(NotFound); }
    if TagTaken(db.tags, tag.name, tag.category, Some(t)) { return Err(Duplicate); }
    if tag.category.Some? && tag.category != db.tags[t].category {
      var clashes := ClashingVms(db.vms, db.tags, t, tag.category.value);
      if |clashes| > 0 { return Err(TagConflict); }
    }
    db.tags := db.tags[t := tag];
    return Ok(t);
  }

  function DeleteTagSpec(s: State, t: Id): Reply {
    if t !in s.tags then Reply(s, Err(NotFound))
    else Reply(s.(tags := s.tags - {t}, vms := Untagged(s.vms, {t})), Ok(t))
  }

  method DeleteTag(db: Database, ghost cache: Cache, ghost cfg: Settings, ghost now: Time, t: Id)
    returns (result: Result<Id, Error>)
    modifies db`tags, db`vms
    ensures Reply(Snap(db, cache, cfg, now), result) == DeleteTagSpec(old(Snap(db, cache, cfg, now)), t)
  {
    if t !in db.tags { return Err(NotFound); }
    db.vms := Untagged(db.vms, {t});
    db.tags := db.tags - {t};
    return Ok(t);
  }

  // ---- assigning tags to a VM ------------------------------------------------------------------

  function Members(s: seq<Id>): set<Id> {
    set t | t in s
  }

  ghost predicate NoRepeats(s: seq<Id>) {
    forall i, j :: 0 <= i < j < |s| ==> s[i] != s[j]
  }

  function SetVmTagsSpec(s: State, v: Id, ids: seq<Id>): Reply {
    if v !in s.vms then Reply(s, Err(NotFound))
    else if !(Members(ids) <= s.tags.Keys) then Reply(s, Err(NotFound))
    else if Crowded(s.tags, Members(ids)) then Reply(s, Err(TagConflict))
    else Reply(s.(vms := s.vms[v := s.vms[v].(tags := Members(ids))]), Ok(v))
  }

  /** The requested ids, each kept at its first place. */
  method Deduplicate(ids: seq<Id>) returns (wanted: seq<Id>)
    ensures Members(wanted) == Members(ids) && NoRepeats(wanted)
  {
    wanted := [];
    for i := 0 to |ids|
      invariant Members(wanted) == Members(ids[..i]) && NoRepeats(wanted)
    {
      ghost var sofar := wanted;
      assert Members(ids[..i + 1]) == Members(ids[..i]) + {ids[i]};
      if ids[i] !in wanted {
        assert ids[i] !in Members(wanted);
        wanted := wanted + [ids[i]];
        assert Members(wanted) == Members(sofar) + {ids[i]};
      } else {
        assert ids[i] in Members(wanted);
      }
    }
    assert ids[..|ids|] == ids;
  }

  /** SELECT ... WHERE id IN: shorter than the request exactly when an id is unknown. */
  function Existing(tags: map<Id, Tag>, wanted: seq<Id>): (rows: seq<Id>)
    ensures |rows| <= |wanted|
    ensures |rows| == |wanted| <==> Members(wanted) <= tags.Keys
    ensures |rows| == |wanted| ==> rows == wanted
  {
    if wanted == [] then []
    else
      assert Members(wanted) == {wanted[0]} + Members(wanted[1..]);
      (if wanted[0] in tags then [wanted[0]] else []) + Existing(tags, wanted[1..])
  }

  ghost predicate GroupsOf(tags: map<Id, Tag>, rows: seq<Id>, groups: map<Id, seq<Id>>) {
    && (forall c :: c in groups ==> groups[c] != [] && NoRepeats(groups[c]))
    && (forall c, t :: c in groups && t in groups[c] ==> t in rows && t in tags && tags[t].category == Some(c))
    && (forall t :: t in rows && t in tags && tags[t].category.Some? ==>
          tags[t].category.value in groups && t in groups[tags[t].category.value])
  }

  method GroupByCategory(tags: map<Id, Tag>, rows: seq<Id>) returns (groups: map<Id, seq<Id>>)
    requires Members(rows) <= tags.Keys && NoRepeats(rows)
    ensures GroupsOf(tags, rows, groups)
  {
    groups := map[];
    for i := 0 to |rows|
      invariant GroupsOf(tags, rows[..i], groups)
    {
      var t := rows[i];
      assert t in Members(rows) && t !in rows[..i];
      assert rows[..i + 1] == rows[..i] + [t];
      if tags[t].category.Some? {
        var c := tags[t].category.value;
        groups := groups[c := (if c in groups then groups[c] else []) + [t]];
      }
    }
    assert rows[..|rows|] == rows;
  }

  lemma CrowdedGroup(tags: map<Id, Tag>, rows: seq<Id>, groups: map<Id, seq<Id>>)
    requires GroupsOf(tags, rows, groups)
    ensures Crowded(tags, Members(rows)) <==> exists c :: c in groups && |groups[c]| > 1
  {
    if c :| c in groups && |groups[c]| > 1 {
      var a, b := groups[c][0], groups[c][1];
      assert a in groups[c] && b in groups[c] && a in Members(rows) && b in Members(rows);
    }
    if a, b :| a in Members(rows) && b in Members(rows) && a in tags && b in tags && a != b
               && tags[a].category.Some? && tags[a].category == tags[b].category {
      var c := tags[a].category.value;
      assert a in groups[c] && b in groups[c];
    }
  }

  method AnyCrowded(groups: map<Id, seq<Id>>) returns (yes: bool)
    ensures yes <==> exists c :: c in groups && |groups[c]| > 1
  {
    var left := groups.Keys;
    while left != {}
      invariant left <= groups.Keys
      invariant forall c :: c in groups && c !in left ==> |groups[c]| <= 1
      decreases left
    {
      var c :| c in left;
      if |groups[c]| > 1 { return true; }
      left := left - {c};
    }
    return false;
  }

  method SetVmTags(db: Database, ghost cache: Cache, ghost cfg: Settings, ghost now: Time, v: Id, ids: seq<Id>)
    returns (result: Result<Id, Error>)
    modifies db`vms
    ensures Reply(Snap(db, cache, cfg, now), result) == SetVmTagsSpec(old(Snap(db, cache, cfg, now)), v, ids)
  {
    if v !in db.vms { return Err(NotFound); }
    var wanted := Deduplicate(ids);
    var rows := Existing(db.tags, wanted);
    if |rows| != |wanted| { return Err(NotFound); }
    var groups := GroupByCategory(db.tags, rows);
    CrowdedGroup(db.tags, rows, groups);
    var crowded := AnyCrowded(groups);
    if crowded { return Err(TagConflict); }
    db.vms := db.vms[v := db.vms[v].(tags := Members(rows))];
    return Ok(v);
  }
}
