/** The content-addressed file store: references point at assets, assets are deduplicated by the
  * digest of their bytes, and the bytes live on disk under that digest.
  *
  * The store is compared with the naive one in which every reference owns its own copy of its
  * bytes.  Digests and file-name sanitising are parameters; row identifiers are drawn from
  * counters, so that they are fresh. */
module FileStore {
  import opened Options

  type Bytes = seq<bv8>
  type Digest = string
  type Id = nat

  datatype Env = Env(
    sha256: Bytes -> Digest, safeFilename: string -> string, safeWorkspacePath: string -> string)

  datatype Source = Upload | Artifact | Workspace | Knowledge | RunAttachment | SkillPackage

  datatype Asset = Asset(sha256: Digest, sizeBytes: nat)

  /** What names a reference: owner, workspace, file name, origin and session (none: cross-session). */
  datatype Tag = Tag(
    user: string, workspace: string, filename: string, source: Source, session: Option<string>, createdAt: nat)

  datatype Ref = Ref(assetId: Id, tag: Tag, deleted: bool)

  /** The two tables, the directory of stored bytes, and the next fresh identifiers. */
  datatype Store = Store(
    assets: map<Id, Asset>, refs: map<Id, Ref>, files: map<Digest, Bytes>, nextAsset: Id, nextRef: Id)

  const EMPTY_STORE := Store(map[], map[], map[], 0, 0)

  datatype Outcome = Done(ref: Id) | Removed(count: nat) | RefNotFound | AssetNotFound | ForeignKeyFailed

  // ---------------------------------------------------------------- reading

  predicate Active(s: Store, id: Id) { id in s.refs && !s.refs[id].deleted }

  /** The row a caller with this user and workspace may see. */
  predicate Seen(s: Store, user: string, workspace: string, id: Id) {
    id in s.refs && s.refs[id].tag.user == user && s.refs[id].tag.workspace == workspace
  }

  /** The bytes a reference reads, if its row, its asset and the file on disk are all there. */
  function Read(s: Store, id: Id): Option<Bytes> {
    if !Active(s, id) || s.refs[id].assetId !in s.assets then None
    else
      var digest := s.assets[s.refs[id].assetId].sha256;
      if digest in s.files then Some(s.files[digest]) else None
  }

  // ---------------------------------------------------------------- finding rows

  /** What a lookup by file name asks for; `source` is not filtered on when absent. */
  datatype Query = Query(user: string, workspace: string, filename: string,
                         source: Option<Source>, session: Option<string>)

  predicate Answers(tag: Tag, q: Query) {
    && tag.user == q.user && tag.workspace == q.workspace && tag.filename == q.filename
    && (q.source.Some? ==> tag.source == q.source.value)
    && tag.session == q.session
  }

  /** A lookup returns a newest matching row (any of them on a tie), or nothing if there is none. */
  predicate Finds(tags: map<Id, Tag>, q: Query, target: Option<Id>) {
    match target
    case None => forall id :: id in tags ==> !Answers(tags[id], q)
    case Some(found) =>
      && found in tags && Answers(tags[found], q)
      && forall id :: id in tags && Answers(tags[id], q) ==> tags[id].createdAt <= tags[found].createdAt
  }

  function ActiveTags(s: Store): map<Id, Tag> {
    map id | id in s.refs && !s.refs[id].deleted :: s.refs[id].tag
  }

  ghost predicate UniqueDigests(assets: map<Id, Asset>) {
    forall i, j :: i in assets && j in assets && assets[i].sha256 == assets[j].sha256 ==> i == j
  }

  ghost function AssetFor(s: Store, digest: Digest): Option<Id> {
    if exists id :: id in s.assets && s.assets[id].sha256 == digest
    then var id :| id in s.assets && s.assets[id].sha256 == digest; Some(id)
    else None
  }

  /** The session a caller passes: an empty string counts as none. */
  function Scope(session: Option<string>): Option<string> {
    if session == Some("") then None else session
  }

  // ---------------------------------------------------------------- operations

  /** The asset for these bytes: the row with their digest, or a new row and a new file. */
  ghost function EnsureAsset(env: Env, s: Store, content: Bytes): (Store, Id) {
    var digest := env.sha256(content);
    var found := AssetFor(s, digest);
    if found.Some? then (s, found.value)
    else (s.(assets := s.assets[s.nextAsset := Asset(digest, |content|)],
             files := s.files[digest := content],
             nextAsset := s.nextAsset + 1), s.nextAsset)
  }

  function AddRef(s: Store, assetId: Id, tag: Tag): (Store, Outcome) {
    (s.(refs := s.refs[s.nextRef := Ref(assetId, tag, false)], nextRef := s.nextRef + 1), Done(s.nextRef))
  }

  ghost function Created(env: Env, s: Store, content: Bytes, tag: Tag): (Store, Outcome) {
    var (s1, assetId) := EnsureAsset(env, s, content);
    AddRef(s1, assetId, tag.(filename := env.safeFilename(tag.filename), session := Scope(tag.session)))
  }

  /** Point an existing reference at the asset, or create one. */
  function PointAt(s: Store, assetId: Id, tag: Tag, target: Option<Id>): (Store, Outcome)
    requires target.Some? ==> target.value in s.refs
  {
    if target.None? then AddRef(s, assetId, tag)
    else (s.(refs := s.refs[target.value := s.refs[target.value].(assetId := assetId)]), Done(target.value))
  }

  ghost function Synced(env: Env, s: Store, content: Bytes, tag: Tag, target: Option<Id>): (Store, Outcome)
    requires target.Some? ==> target.value in s.refs
  {
    var (s1, assetId) := EnsureAsset(env, s, content);
    PointAt(s1, assetId, SyncTag(env, tag), target)
  }

  function SyncTag(env: Env, tag: Tag): Tag {
    tag.(filename := env.safeWorkspacePath(tag.filename), source := Workspace, session := Scope(tag.session))
  }

  function SyncQuery(env: Env, tag: Tag): Query {
    Query(tag.user, tag.workspace, env.safeWorkspacePath(tag.filename), None, Scope(tag.session))
  }

  /** The cross-session tag a promoted reference gets. */
  function PromoteTag(env: Env, source: Tag, filename: Option<string>, now: nat): Tag {
    Tag(source.user, source.workspace,
          env.safeWorkspacePath(if filename.Some? then filename.value else source.filename), Workspace, None, now)
  }

  function PromoteQuery(tag: Tag): Query {
    Query(tag.user, tag.workspace, tag.filename, Some(Workspace), None)
  }

  function Promoted(env: Env, s: Store, user: string, workspace: string, id: Id, filename: Option<string>,
                   now: nat, target: Option<Id>): (Store, Outcome)
    requires target.Some? ==> target.value in s.refs
  {
    if !Seen(s, user, workspace, id) || s.refs[id].deleted then (s, RefNotFound)
    else if s.refs[id].assetId !in s.assets then (s, AssetNotFound)
    else PointAt(s, s.refs[id].assetId, PromoteTag(env, s.refs[id].tag, filename, now), target)
  }

  /** A soft delete: the row stays, marked. */
  function Deleted(s: Store, user: string, workspace: string, id: Id): (Store, Outcome) {
    if Seen(s, user, workspace, id)
    then (s.(refs := s.refs[id := s.refs[id].(deleted := true)]), Done(id))
    else (s, RefNotFound)
  }

  predicate OfSession(tag: Tag, user: string, session: string) {
    tag.user == user && tag.session == Some(session)
  }

  /** Deleting a session removes its reference rows outright. */
  function PurgeSession(s: Store, user: string, session: string): Store {
    s.(refs := s.refs - set id | id in s.refs && OfSession(s.refs[id].tag, user, session))
  }

  predicate Orphan(s: Store, assetId: Id) {
    assetId in s.assets && forall id :: id in s.refs && s.refs[id].assetId == assetId ==> s.refs[id].deleted
  }

  /** Some row, deleted or not, still names the asset: the foreign key refuses to drop its record. */
  predicate Referenced(s: Store, assetId: Id) {
    exists id :: id in s.refs && s.refs[id].assetId == assetId
  }

  /** The collector's loop over the orphans still listed: first the file goes, then the record, and the
    * first refusal ends the call. */
  function Collect(s: Store, orphans: seq<Id>, removed: nat): (Store, Outcome)
    requires forall a :: a in orphans ==> a in s.assets
    requires Distinct(orphans)
    decreases |orphans|
  {
    if orphans == [] then (s, Removed(removed))
    else
      var unlinked := s.(files := s.files - {s.assets[orphans[0]].sha256});
      if Referenced(s, orphans[0]) then (unlinked, ForeignKeyFailed)
      else Collect(unlinked.(assets := unlinked.assets - {orphans[0]}), orphans[1..], removed + 1)
  }

  predicate Distinct(ids: seq<Id>) {
    forall i, j :: 0 <= i < j < |ids| ==> ids[i] != ids[j]
  }

  /** `orphans` lists the orphaned assets, each once, in some order. */
  ghost predicate Lists(s: Store, orphans: seq<Id>) {
    && (forall a :: a in orphans <==> Orphan(s, a))
    && Distinct(orphans)
  }

  // ---------------------------------------------------------------- runs of operations

  datatype Op =
    | CreateOp(content: Bytes, tag: Tag)
    | SyncOp(content: Bytes, tag: Tag, target: Option<Id>)
    | PromoteOp(user: string, workspace: string, id: Id, filename: Option<string>, now: nat, target: Option<Id>)
    | DeleteOp(user: string, workspace: string, id: Id)
    | PurgeOp(user: string, session: string)
    | GcOp(orphans: seq<Id>)

  /** The lookups inside the operation answer as the tables do. */
  ghost predicate Fits(env: Env, s: Store, op: Op) {
    match op
    case SyncOp(_, tag, target) => Finds(ActiveTags(s), SyncQuery(env, tag), target)
    case PromoteOp(user, workspace, id, filename, now, target) =>
      if Seen(s, user, workspace, id) && !s.refs[id].deleted
      then Finds(ActiveTags(s), PromoteQuery(PromoteTag(env, s.refs[id].tag, filename, now)), target)
      else target.None?
    case GcOp(orphans) => Lists(s, orphans)
    case _ => true
  }

  ghost function Perform(env: Env, s: Store, op: Op): (Store, Outcome)
    requires Fits(env, s, op)
  {
    match op
    case CreateOp(content, tag) => Created(env, s, content, tag)
    case SyncOp(content, tag, target) => Synced(env, s, content, tag, target)
    case PromoteOp(user, workspace, id, filename, now, target) =>
      Promoted(env, s, user, workspace, id, filename, now, target)
    case DeleteOp(user, workspace, id) => Deleted(s, user, workspace, id)
    case PurgeOp(user, session) => (PurgeSession(s, user, session), Removed(0))
    case GcOp(orphans) => Collect(s, orphans, 0)
  }

  // ---------------------------------------------------------------- the naive store

  datatype Owned = Owned(bytes: Bytes, tag: Tag)

  /** Every live reference owns its bytes; there are no assets, digests, files or collector. */
  datatype Naive = Naive(refs: map<Id, Owned>, nextRef: Id)

  function Tags(n: Naive): map<Id, Tag> {
    map id | id in n.refs :: n.refs[id].tag
  }

  function Write(n: Naive, bytes: Bytes, tag: Tag, target: Option<Id>): Naive
    requires target.Some? ==> target.value in n.refs
  {
    if target.None? then Naive(n.refs[n.nextRef := Owned(bytes, tag)], n.nextRef + 1)
    else n.(refs := n.refs[target.value := n.refs[target.value].(bytes := bytes)])
  }

  ghost predicate NaiveFits(env: Env, n: Naive, op: Op) {
    match op
    case SyncOp(_, tag, target) => Finds(Tags(n), SyncQuery(env, tag), target)
    case PromoteOp(user, workspace, id, filename, now, target) =>
      if id in n.refs && n.refs[id].tag.user == user && n.refs[id].tag.workspace == workspace
      then Finds(Tags(n), PromoteQuery(PromoteTag(env, n.refs[id].tag, filename, now)), target)
      else target.None?
    case _ => true
  }

  ghost function NaivePerform(env: Env, n: Naive, op: Op): Naive
    requires NaiveFits(env, n, op)
  {
    match op
    case CreateOp(content, tag) =>
      Write(n, content, tag.(filename := env.safeFilename(tag.filename), session := Scope(tag.session)), None)
    case SyncOp(content, tag, target) => Write(n, content, SyncTag(env, tag), target)
    case PromoteOp(user, workspace, id, filename, now, target) =>
      if id in n.refs && n.refs[id].tag.user == user && n.refs[id].tag.workspace == workspace
      then Write(n, n.refs[id].bytes, PromoteTag(env, n.refs[id].tag, filename, now), target)
      else n
    case DeleteOp(user, workspace, id) =>
      if id in n.refs && n.refs[id].tag.user == user && n.refs[id].tag.workspace == workspace
      then n.(refs := n.refs - {id}) else n
    case PurgeOp(user, session) =>
      n.(refs := n.refs - set id | id in n.refs && OfSession(n.refs[id].tag, user, session))
    case GcOp(_) => n
  }

  // ---------------------------------------------------------------- what the store keeps

  ghost predicate CollisionFree(env: Env) {
    forall a, b :: env.sha256(a) == env.sha256(b) ==> a == b
  }

  /** One asset for each digest, every row names an asset, and each file is the one its digest says. */
  ghost predicate Sound(env: Env, s: Store) {
    && UniqueDigests(s.assets)
    && (forall id :: id in s.refs ==> s.refs[id].assetId in s.assets)
    && (forall id :: id in s.refs ==> id < s.nextRef)
    && (forall a :: a in s.assets ==> a < s.nextAsset)
    && (forall d :: d in s.files ==> env.sha256(s.files[d]) == d)
  }

  /** Every asset record has its file. */
  ghost predicate Full(s: Store) {
    forall a :: a in s.assets ==> s.assets[a].sha256 in s.files
  }

  /** Every live reference can be read. */
  ghost predicate Backed(s: Store) {
    forall id :: Active(s, id) ==> Read(s, id).Some?
  }

  /** The naive store the tables and files stand for. */
  ghost function Abs(s: Store): Naive
    requires Backed(s)
  {
    Naive(map id | id in s.refs && Active(s, id) :: Owned(Read(s, id).value, s.refs[id].tag), s.nextRef)
  }

  /** What a caller can check before collecting: no row, live or deleted, names an orphan. */
  ghost predicate NothingBlocks(s: Store) {
    forall a :: Orphan(s, a) ==> !Referenced(s, a)
  }

  // ---------------------------------------------------------------- one operation

  lemma AssetForFinds(env: Env, s: Store, content: Bytes)
    requires Sound(env, s)
    ensures var found := AssetFor(s, env.sha256(content));
            && (found.Some? ==> found.value in s.assets && s.assets[found.value].sha256 == env.sha256(content))
            && (found.None? ==> forall a :: a in s.assets ==> s.assets[a].sha256 != env.sha256(content))
  {
  }

  /** Storing bytes leaves what every live reference reads alone; the asset then holds exactly those
    * bytes unless its record was already there without its file. */
  lemma EnsureAssetStores(env: Env, s: Store, content: Bytes)
    requires Sound(env, s) && CollisionFree(env)
    ensures var (s1, a) := EnsureAsset(env, s, content);
            && Sound(env, s1) && a in s1.assets && s1.assets[a].sha256 == env.sha256(content)
            && s1.refs == s.refs && s1.nextRef == s.nextRef
            && (forall id :: Active(s, id) ==> Read(s1, id) == Read(s, id))
            && (Full(s) ==> Full(s1))
            && (env.sha256(content) in s1.files ==> s1.files[env.sha256(content)] == content)
            && (env.sha256(content) !in s1.files <==>
                 AssetFor(s, env.sha256(content)).Some? && env.sha256(content) !in s.files)
  {
    AssetForFinds(env, s, content);
    var (s1, a) := EnsureAsset(env, s, content);
    var d := env.sha256(content);
  }

  /** Pointing a reference at an asset changes what that reference reads and nothing else. */
  lemma PointAtWrites(env: Env, s: Store, a: Id, tag: Tag, target: Option<Id>)
    requires Sound(env, s) && a in s.assets && (target.Some? ==> Active(s, target.value))
    ensures var (s', outcome) := PointAt(s, a, tag, target);
            && Sound(env, s') && outcome == Done(if target.Some? then target.value else s.nextRef)
            && Active(s', outcome.ref)
            && Read(s', outcome.ref) == (if s.assets[a].sha256 in s.files then Some(s.files[s.assets[a].sha256]) else None)
            && (forall id :: id != outcome.ref ==> Active(s', id) == Active(s, id) && Read(s', id) == Read(s, id))
            && (Full(s) ==> Full(s'))
  {
    var (s', outcome) := PointAt(s, a, tag, target);
    assert s'.files == s.files && s'.assets == s.assets;
    forall id | id != outcome.ref ensures Active(s', id) == Active(s, id) && Read(s', id) == Read(s, id) {
    }
  }

  lemma AbsTags(s: Store)
    requires Backed(s)
    ensures Tags(Abs(s)) == ActiveTags(s)
  {
  }

  lemma AbsAt(s: Store, id: Id)
    requires Backed(s)
    ensures id in Abs(s).refs <==> Active(s, id)
    ensures Active(s, id) ==> Abs(s).refs[id] == Owned(Read(s, id).value, s.refs[id].tag)
  {
  }

  /** Two stores that differ at most in what reference `id` reads. */
  lemma AbsWritten(s: Store, s': Store, id: Id, bytes: Bytes)
    requires Backed(s) && Backed(s') && Active(s', id) && Read(s', id) == Some(bytes)
    requires forall other :: other != id ==> Active(s', other) == Active(s, other)
    requires forall other :: other != id && Active(s, other) ==>
               Read(s', other) == Read(s, other) && s'.refs[other].tag == s.refs[other].tag
    ensures Abs(s').refs == Abs(s).refs[id := Owned(bytes, s'.refs[id].tag)]
  {
  }

  /** A store in which some references are gone and the others read the same. */
  lemma AbsWithout(s: Store, s': Store, gone: set<Id>)
    requires Backed(s) && Backed(s')
    requires forall id :: Active(s', id) <==> Active(s, id) && id !in gone
    requires forall id :: Active(s', id) ==> Read(s', id) == Read(s, id) && s'.refs[id].tag == s.refs[id].tag
    ensures Abs(s').refs == Abs(s).refs - gone
  {
  }

  /** A write of stored bytes to one reference is a write to the naive store; a write without its file leaves a
    * live reference unreadable. */
  lemma PointAtRefines(env: Env, s: Store, a: Id, bytes: Bytes, tag: Tag, target: Option<Id>)
    requires Sound(env, s) && Backed(s) && a in s.assets && (target.Some? ==> Active(s, target.value))
    requires s.assets[a].sha256 in s.files ==> s.files[s.assets[a].sha256] == bytes
    ensures var s' := PointAt(s, a, tag, target).0;
            && Sound(env, s') && (target.Some? ==> target.value in Abs(s).refs)
            && (Backed(s') <==> s.assets[a].sha256 in s.files)
            && (Backed(s') ==> Abs(s') == Write(Abs(s), bytes, tag, target))
  {
    hide Sound, Full, Read;
    PointAtWrites(env, s, a, tag, target);
    var s' := PointAt(s, a, tag, target).0;
    var id := if target.Some? then target.value else s.nextRef;
    AbsAt(s, id);
    if s.assets[a].sha256 in s.files {
      assert Backed(s');
      hide Backed;
      AbsWritten(s, s', id, bytes);
    }
  }

  /** Storing bytes does not show in the naive store. */
  lemma EnsureAssetHidden(env: Env, s: Store, content: Bytes)
    requires Sound(env, s) && Backed(s) && CollisionFree(env)
    ensures var s1 := EnsureAsset(env, s, content).0; Backed(s1) && Abs(s1) == Abs(s)
  {
    EnsureAssetStores(env, s, content);
    var s1 := EnsureAsset(env, s, content).0;
    hide Sound, Full, Read, EnsureAsset, CollisionFree;
    AbsWithout(s, s1, {});
  }

  // ---------------------------------------------------------------- the collector

  /** What the loop over a list of orphans does: the references stay and read the same, and it gets to the end
    * exactly when no orphan on the list is named by a row. */
  ghost predicate Collected(env: Env, s: Store, orphans: seq<Id>, removed: nat, s': Store, outcome: Outcome) {
    && s'.refs == s.refs && s'.nextRef == s.nextRef
    && (forall id :: Active(s, id) ==> Read(s', id) == Read(s, id))
    && Sound(env, s')
    && (forall a :: a in s.assets && Referenced(s, a) ==> a in s'.assets)
    && ((exists a :: a in orphans && Referenced(s, a)) ==> outcome == ForeignKeyFailed && !Full(s'))
    && (!(exists a :: a in orphans && Referenced(s, a)) ==>
         && outcome == Removed(removed + |orphans|)
         && (forall a :: a in s'.assets <==> a in s.assets && a !in orphans)
         && (Full(s) ==> Full(s')))
  }

  lemma {:induction false} CollectRuns(env: Env, s: Store, orphans: seq<Id>, removed: nat)
    requires Sound(env, s) && Distinct(orphans)
    requires forall a :: a in orphans ==> a in s.assets
    requires forall a :: a in orphans ==> Orphan(s, a)
    ensures var (s', outcome) := Collect(s, orphans, removed); Collected(env, s, orphans, removed, s', outcome)
    decreases |orphans|
  {
    if orphans != [] {
      var a, rest := orphans[0], orphans[1..];
      if Referenced(s, a) {
        UnlinkKeeps(env, s, a);
        hide Sound, Full, Read;
        assert a in orphans;
      } else {
        DropKeeps(env, s, a);
        var next := s.(files := s.files - {s.assets[a].sha256}, assets := s.assets - {a});
        RestIsOrphaned(s, orphans, next);
        hide Sound, Full, Read, Active, Orphan, Collected, Distinct;
        var (s', outcome) := Collect(next, rest, removed + 1);
        assert Collect(s, orphans, removed) == (s', outcome) && orphans == [a] + rest;
        hide Referenced, Collect;
        CollectRuns(env, next, rest, removed + 1);
        CollectedMore(env, s, a, rest, removed, next, s', outcome);
      }
    }
  }

  lemma RestIsOrphaned(s: Store, orphans: seq<Id>, next: Store)
    requires orphans != [] && Distinct(orphans) && forall a :: a in orphans ==> Orphan(s, a)
    requires next.refs == s.refs && next.assets == s.assets - {orphans[0]}
    ensures var rest := orphans[1..];
            Distinct(rest) && orphans[0] !in rest && forall b :: b in rest ==> b in next.assets && Orphan(next, b)
  {
    var rest := orphans[1..];
    forall b | b in rest ensures b in next.assets && b != orphans[0] && Orphan(next, b) {
      var i :| 0 <= i < |rest| && rest[i] == b;
      assert orphans[i + 1] == b && orphans[0] != orphans[i + 1];
      assert b in orphans && Orphan(s, b);
    }
  }

  lemma CollectedMore(env: Env, s: Store, a: Id, rest: seq<Id>, removed: nat, next: Store, s': Store, outcome: Outcome)
    requires Collected(env, next, rest, removed + 1, s', outcome)
    requires a !in rest && !Referenced(s, a) && next.refs == s.refs && next.nextRef == s.nextRef
    requires next.assets == s.assets - {a} && (Full(s) ==> Full(next))
    requires forall id :: Active(s, id) ==> Read(next, id) == Read(s, id)
    ensures Collected(env, s, [a] + rest, removed, s', outcome)
  {
    assert forall b :: Referenced(next, b) == Referenced(s, b);
    assert forall id :: Active(next, id) == Active(s, id);
    hide Sound, Full, Read, Active, Referenced;
    if exists b :: b in [a] + rest && Referenced(s, b) {
      var b :| b in [a] + rest && Referenced(s, b);
      assert b in rest;
    }
  }

  /** Removing an orphan's file leaves its record without one and no live reference notices. */
  lemma UnlinkKeeps(env: Env, s: Store, a: Id)
    requires Sound(env, s) && Orphan(s, a)
    ensures var unlinked := s.(files := s.files - {s.assets[a].sha256});
            && Sound(env, unlinked) && !Full(unlinked)
            && forall id :: Active(s, id) ==> Read(unlinked, id) == Read(s, id)
  {
  }

  lemma DropKeeps(env: Env, s: Store, a: Id)
    requires Sound(env, s) && Orphan(s, a) && !Referenced(s, a)
    ensures var next := s.(files := s.files - {s.assets[a].sha256}, assets := s.assets - {a});
            && Sound(env, next) && (Full(s) ==> Full(next))
            && forall id :: Active(s, id) ==> Read(next, id) == Read(s, id)
  {
  }

  /** The collector finishes exactly when no orphan is still named by a deleted row.  It then keeps just
    * the assets with a live reference and reports how many it dropped; otherwise it fails after having
    * removed the file of an asset whose record stays, and every later collection fails too as long as the
    * deleted row stays.  Either way live references read what they did. */
  lemma GcOutcome(env: Env, s: Store, orphans: seq<Id>)
    requires Sound(env, s) && Lists(s, orphans)
    ensures var (s', outcome) := Collect(s, orphans, 0);
            && (NothingBlocks(s) ==>
                 && outcome == Removed(|orphans|)
                 && (forall a :: a in s'.assets <==> a in s.assets && exists id :: Active(s, id) && s.refs[id].assetId == a)
                 && (Full(s) ==> Full(s')))
            && (!NothingBlocks(s) ==>
                 && outcome == ForeignKeyFailed && !NothingBlocks(s')
                 && exists a :: a in s'.assets && s'.assets[a].sha256 !in s'.files)
            && Sound(env, s') && s'.refs == s.refs && s'.nextRef == s.nextRef
            && forall id :: Active(s, id) ==> Read(s', id) == Read(s, id)
  {
    CollectRuns(env, s, orphans, 0);
    if !NothingBlocks(s) {
      var a :| Orphan(s, a) && Referenced(s, a);
      assert a in orphans;
      var s' := Collect(s, orphans, 0).0;
      assert Orphan(s', a) && Referenced(s', a);
    }
  }

  // ---------------------------------------------------------------- refinement

  /** What a caller can check before storing bytes: a record for their digest is there without its file, so they
    * would not be written. */
  predicate MissesFile(env: Env, s: Store, content: Bytes) {
    env.sha256(content) !in s.files && exists a :: a in s.assets && s.assets[a].sha256 == env.sha256(content)
  }

  /** The operation stores bytes that a blocked collection has left a record of, but no file. */
  predicate Lost(env: Env, s: Store, op: Op) {
    (op.CreateOp? || op.SyncOp?) && MissesFile(env, s, op.content)
  }

  lemma StoreRefines(env: Env, s: Store, content: Bytes, tag: Tag, target: Option<Id>)
    requires CollisionFree(env) && Sound(env, s) && Backed(s) && (target.Some? ==> Active(s, target.value))
    ensures var (s1, a) := EnsureAsset(env, s, content);
            && s1.refs == s.refs && (target.Some? ==> target.value in Abs(s).refs)
            && var s' := PointAt(s1, a, tag, target).0;
               && Sound(env, s') && (Backed(s') <==> !MissesFile(env, s, content))
               && (Backed(s') ==> Abs(s') == Write(Abs(s), content, tag, target))
  {
    EnsureAssetStores(env, s, content);
    EnsureAssetHidden(env, s, content);
    AssetForFinds(env, s, content);
    var (s1, a) := EnsureAsset(env, s, content);
    assert MissesFile(env, s, content) <==> s1.assets[a].sha256 !in s1.files;
    hide Sound, Backed, Full, Read, Abs, EnsureAsset, MissesFile, CollisionFree;
    PointAtRefines(env, s1, a, content, tag, target);
  }

  lemma PromoteRefines(env: Env, s: Store, op: Op)
    requires Sound(env, s) && Backed(s) && op.PromoteOp? && Fits(env, s, op)
    ensures NaiveFits(env, Abs(s), op)
    ensures var s' := Perform(env, s, op).0;
            Sound(env, s') && Backed(s') && Abs(s') == NaivePerform(env, Abs(s), op)
  {
    AbsTags(s);
    AbsAt(s, op.id);
    if Seen(s, op.user, op.workspace, op.id) && !s.refs[op.id].deleted {
      assert Active(s, op.id) && Read(s, op.id).Some?;
      PointAtRefines(env, s, s.refs[op.id].assetId, Read(s, op.id).value,
                     PromoteTag(env, s.refs[op.id].tag, op.filename, op.now), op.target);
    }
    hide Sound, Full, Backed, Read, Abs, Finds, PointAt;
  }

  /** A collection does not show in the naive store, blocked or not. */
  lemma GcRefines(env: Env, s: Store, orphans: seq<Id>)
    requires Sound(env, s) && Backed(s) && Lists(s, orphans)
    ensures var s' := Collect(s, orphans, 0).0;
            Sound(env, s') && Backed(s') && Abs(s') == Abs(s)
  {
    hide Sound, Read, Collect, NothingBlocks, Full;
    GcOutcome(env, s, orphans);
    var s' := Collect(s, orphans, 0).0;
    assert forall id :: Active(s', id) == Active(s, id);
    AbsWithout(s, s', {});
  }

  /** Every operation, blocked collections included, keeps the tables sound and is the naive operation, unless it
    * stores bytes of which a record is there without its file: exactly then a live reference cannot be read. */
  lemma PerformRefines(env: Env, s: Store, op: Op)
    requires CollisionFree(env) && Sound(env, s) && Backed(s) && Fits(env, s, op)
    ensures NaiveFits(env, Abs(s), op)
    ensures var s' := Perform(env, s, op).0;
            && Sound(env, s') && (Backed(s') <==> !Lost(env, s, op))
            && (Backed(s') ==> Abs(s') == NaivePerform(env, Abs(s), op))
  {
    hide Sound, Full, Backed, Read, Abs, PointAt, EnsureAsset, Collect, PurgeSession, Deleted, MissesFile;
    AbsTags(s);
    match op
    case CreateOp(content, tag) =>
      StoreRefines(env, s, content,
                   tag.(filename := env.safeFilename(tag.filename), session := Scope(tag.session)), None);
      CreatePoints(env, s, content, tag);
    case SyncOp(content, tag, target) => StoreRefines(env, s, content, SyncTag(env, tag), target);
    case PromoteOp(_, _, _, _, _, _) => PromoteRefines(env, s, op);
    case DeleteOp(user, workspace, id) => DeleteRefines(env, s, user, workspace, id);
    case PurgeOp(user, session) => PurgeRefines(env, s, user, session);
    case GcOp(orphans) => GcRefines(env, s, orphans);
  }

  /** Every record keeps its file exactly as long as no collection is blocked, so until then nothing is lost. */
  lemma StaysIntact(env: Env, s: Store, op: Op)
    requires CollisionFree(env) && Sound(env, s) && Full(s) && Fits(env, s, op)
    ensures Full(Perform(env, s, op).0) <==> (op.GcOp? ==> NothingBlocks(s))
    ensures !Lost(env, s, op)
  {
    match op
    case CreateOp(content, tag) =>
      EnsureAssetStores(env, s, content);
      CreatePoints(env, s, content, tag);
      var (s1, a) := EnsureAsset(env, s, content);
      PointAtWrites(env, s1, a, tag.(filename := env.safeFilename(tag.filename), session := Scope(tag.session)), None);
    case SyncOp(content, tag, target) =>
      EnsureAssetStores(env, s, content);
      var (s1, a) := EnsureAsset(env, s, content);
      PointAtWrites(env, s1, a, SyncTag(env, tag), target);
    case PromoteOp(user, workspace, id, filename, now, target) =>
      if Seen(s, user, workspace, id) && !s.refs[id].deleted {
        PointAtWrites(env, s, s.refs[id].assetId, PromoteTag(env, s.refs[id].tag, filename, now), target);
      }
    case GcOp(orphans) => GcOutcome(env, s, orphans);
    case _ =>
  }

  /** Creating is pointing a new reference. */
  lemma CreatePoints(env: Env, s: Store, content: Bytes, tag: Tag)
    ensures var (s1, a) := EnsureAsset(env, s, content);
            Created(env, s, content, tag)
            == PointAt(s1, a, tag.(filename := env.safeFilename(tag.filename), session := Scope(tag.session)), None)
  {
  }

  /** Marking or dropping rows leaves the assets and their files alone. */
  lemma RowsRetired(env: Env, s: Store, s': Store)
    requires Sound(env, s) && Backed(s)
    requires s'.assets == s.assets && s'.files == s.files && s'.nextAsset == s.nextAsset && s'.nextRef == s.nextRef
    requires forall id :: id in s'.refs ==> id in s.refs && s'.refs[id].assetId == s.refs[id].assetId
                                            && s'.refs[id].tag == s.refs[id].tag
                                            && (s.refs[id].deleted ==> s'.refs[id].deleted)
    ensures Sound(env, s') && Backed(s')
    ensures forall id :: Active(s', id) ==> Active(s, id) && Read(s', id) == Read(s, id)
  {
    hide UniqueDigests;
    forall id | Active(s', id) ensures Active(s, id) && Read(s', id) == Read(s, id) && Read(s', id).Some? {
      assert Read(s, id).Some?;
    }
  }

  lemma DeleteRefines(env: Env, s: Store, user: string, workspace: string, id: Id)
    requires Sound(env, s) && Backed(s)
    ensures var s' := Deleted(s, user, workspace, id).0;
            && Sound(env, s') && Backed(s')
            && Abs(s') == NaivePerform(env, Abs(s), DeleteOp(user, workspace, id))
  {
    var s' := Deleted(s, user, workspace, id).0;
    hide Sound, Full, Backed, Read;
    RowsRetired(env, s, s');
    AbsAt(s, id);
    if Seen(s, user, workspace, id) {
      AbsWithout(s, s', {id});
      hide Abs;
      assert id !in Abs(s).refs ==> Abs(s).refs - {id} == Abs(s).refs;
    }
  }

  lemma PurgeRefines(env: Env, s: Store, user: string, session: string)
    requires Sound(env, s) && Backed(s)
    ensures var s' := PurgeSession(s, user, session);
            && Sound(env, s') && Backed(s')
            && Abs(s') == NaivePerform(env, Abs(s), PurgeOp(user, session))
  {
    var s' := PurgeSession(s, user, session);
    hide Sound, Full, Backed, Read;
    RowsRetired(env, s, s');
    var gone := set id | id in s.refs && OfSession(s.refs[id].tag, user, session);
    AbsWithout(s, s', gone);
    var n := Abs(s).refs;
    forall id ensures id in n ==> (id in gone <==> OfSession(n[id].tag, user, session)) {
      AbsAt(s, id);
    }
    hide Abs;
    assert n - gone == n - set id | id in n && OfSession(n[id].tag, user, session);
  }

  /** The operations can be performed one after the other. */
  ghost predicate Runs(env: Env, s: Store, ops: seq<Op>, final: Store)
    decreases ops
  {
    if ops == [] then final == s
    else Fits(env, s, ops[0]) && Runs(env, Perform(env, s, ops[0]).0, ops[1..], final)
  }

  /** No operation of the history stores bytes whose record is there without its file. */
  ghost predicate NoneLost(env: Env, s: Store, ops: seq<Op>)
    decreases ops
  {
    ops == [] || (Fits(env, s, ops[0]) ==> !Lost(env, s, ops[0]) && NoneLost(env, Perform(env, s, ops[0]).0, ops[1..]))
  }

  /** Throughout the history every live reference can be read. */
  ghost predicate AlwaysBacked(env: Env, s: Store, ops: seq<Op>)
    decreases ops
  {
    Backed(s) && (ops == [] || (Fits(env, s, ops[0]) ==> AlwaysBacked(env, Perform(env, s, ops[0]).0, ops[1..])))
  }

  ghost predicate NaiveRuns(env: Env, n: Naive, ops: seq<Op>, final: Naive)
    decreases ops
  {
    if ops == [] then final == n
    else NaiveFits(env, n, ops[0]) && NaiveRuns(env, NaivePerform(env, n, ops[0]), ops[1..], final)
  }

  /** Over any sequence of creates, syncs, promotions, deletes, purges and collections, blocked ones included: live
    * references can be read throughout exactly when no bytes are stored whose record is there without its file,
    * and the deduplicated store then stands for what the naive store holds after the same sequence. */
  lemma {:induction false} StoreRefinesNaive(env: Env, s: Store, ops: seq<Op>, final: Store)
    requires CollisionFree(env) && Sound(env, s) && Backed(s) && Runs(env, s, ops, final)
    ensures AlwaysBacked(env, s, ops) <==> NoneLost(env, s, ops)
    ensures NoneLost(env, s, ops) ==>
              Sound(env, final) && Backed(final) && NaiveRuns(env, Abs(s), ops, Abs(final))
    decreases ops
  {
    hide Sound, Backed, Fits, Lost, Perform, NaivePerform, NaiveFits, Abs;
    if ops != [] {
      PerformRefines(env, s, ops[0]);
      var next := Perform(env, s, ops[0]).0;
      if Backed(next) {
        StoreRefinesNaive(env, next, ops[1..], final);
      }
    }
  }

  /** A sync or a promotion changes what at most one reference reads: the live one of that name and
    * session, or a new one.  This needs no intact store. */
  lemma WritesOneReference(env: Env, s: Store, op: Op)
    requires CollisionFree(env) && Sound(env, s) && Fits(env, s, op) && (op.SyncOp? || op.PromoteOp?)
    ensures var (s', outcome) := Perform(env, s, op);
            && (forall id :: !(outcome.Done? && id == outcome.ref) ==> Active(s', id) == Active(s, id) && Read(s', id) == Read(s, id))
            && (outcome.Done? && Active(s, outcome.ref) ==> op.target == Some(outcome.ref))
            && (outcome.Done? && !Active(s, outcome.ref) ==> op.target == None && outcome.ref == s.nextRef)
            && (op.SyncOp? ==> outcome.Done?
                               && Answers(s'.refs[outcome.ref].tag, SyncQuery(env, op.tag)))
  {
    match op
    case SyncOp(content, tag, target) =>
      EnsureAssetStores(env, s, content);
      var (s1, a) := EnsureAsset(env, s, content);
      PointAtWrites(env, s1, a, SyncTag(env, tag), target);
    case PromoteOp(user, workspace, id, filename, now, target) =>
      if Seen(s, user, workspace, id) && !s.refs[id].deleted {
        PointAtWrites(env, s, s.refs[id].assetId, PromoteTag(env, s.refs[id].tag, filename, now), target);
      }
  }

  /** A live reference of this owner, workspace, name and session. */
  predicate Named(s: Store, id: Id, user: string, workspace: string, filename: string, session: Option<string>) {
    && Active(s, id) && s.refs[id].tag.user == user && s.refs[id].tag.workspace == workspace
    && s.refs[id].tag.filename == filename && s.refs[id].tag.session == session
  }

  /** Reading and describing: all references but one are as they were. */
  ghost predicate OthersStay(s: Store, s': Store, written: Id) {
    forall id :: id != written ==>
      && (id in s'.refs <==> id in s.refs) && Read(s', id) == Read(s, id)
      && (id in s.refs ==> s'.refs[id].tag == s.refs[id].tag && s'.refs[id].deleted == s.refs[id].deleted)
  }

  /** The written reference reads the bytes, unless a record of them is there without its file. */
  ghost predicate ReadsBack(env: Env, s: Store, content: Bytes, s': Store, written: Id) {
    Read(s', written) == Some(content) <==> !MissesFile(env, s, content)
  }

  lemma PointAtRows(s: Store, a: Id, tag: Tag, target: Option<Id>)
    requires target.Some? ==> Active(s, target.value)
    ensures var (s', written) := (PointAt(s, a, tag, target).0, if target.Some? then target.value else s.nextRef);
            && (forall id :: id != written ==>
                  (id in s'.refs <==> id in s.refs) && (id in s.refs ==> s'.refs[id] == s.refs[id]))
            && written in s'.refs && s'.refs[written].tag == if target.Some? then s.refs[target.value].tag else tag
  {
  }

  /** The bytes an asset's file holds. */
  function BytesOf(s: Store, a: Id): Option<Bytes> {
    if a in s.assets && s.assets[a].sha256 in s.files then Some(s.files[s.assets[a].sha256]) else None
  }

  lemma PointAtDetails(env: Env, s: Store, a: Id, tag: Tag, target: Option<Id>)
    requires Sound(env, s) && a in s.assets && (target.Some? ==> Active(s, target.value))
    ensures var (s', outcome) := PointAt(s, a, tag, target);
            && outcome == Done(if target.Some? then target.value else s.nextRef)
            && Active(s', outcome.ref) && OthersStay(s, s', outcome.ref) && Read(s', outcome.ref) == BytesOf(s, a)
            && s'.refs[outcome.ref].tag == if target.Some? then s.refs[target.value].tag else tag
  {
    PointAtWrites(env, s, a, tag, target);
    PointAtRows(s, a, tag, target);
    hide Sound, Full, PointAt;
    InactiveReadsNothing(s);
    InactiveReadsNothing(PointAt(s, a, tag, target).0);
    hide Read;
  }

  /** Once the asset is there, the same references read the same. */
  lemma EnsuredReads(env: Env, s: Store, content: Bytes)
    requires CollisionFree(env) && Sound(env, s)
    ensures var (s1, a) := EnsureAsset(env, s, content);
            && Sound(env, s1) && a in s1.assets && s1.refs == s.refs && s1.nextRef == s.nextRef
            && (forall id :: Read(s1, id) == Read(s, id))
            && (BytesOf(s1, a) == Some(content) <==> !MissesFile(env, s, content))
  {
    EnsureAssetStores(env, s, content);
    AssetForFinds(env, s, content);
    var s1 := EnsureAsset(env, s, content).0;
    assert forall id :: Active(s1, id) == Active(s, id);
    hide Sound, Full, EnsureAsset, CollisionFree;
    InactiveReadsNothing(s);
    InactiveReadsNothing(s1);
    hide Read, Active;
  }

  lemma PointAtEffect(env: Env, s: Store, content: Bytes, tag: Tag, target: Option<Id>)
    requires CollisionFree(env) && Sound(env, s) && (target.Some? ==> Active(s, target.value))
    ensures var (s1, a) := EnsureAsset(env, s, content);
            s1.refs == s.refs
            && var (s', outcome) := PointAt(s1, a, tag, target);
               && outcome == Done(if target.Some? then target.value else s.nextRef)
               && Active(s', outcome.ref) && OthersStay(s, s', outcome.ref) && ReadsBack(env, s, content, s', outcome.ref)
               && s'.refs[outcome.ref].tag == if target.Some? then s.refs[target.value].tag else tag
  {
    EnsuredReads(env, s, content);
    var (s1, a) := EnsureAsset(env, s, content);
    assert target.Some? ==> Active(s1, target.value);
    hide Sound, EnsureAsset, CollisionFree, MissesFile, BytesOf, PointAt, Read, OthersStay, Active;
    PointAtDetails(env, s1, a, tag, target);
    OthersStayed(s, s1, PointAt(s1, a, tag, target).0, if target.Some? then target.value else s.nextRef);
  }

  lemma OthersStayed(s: Store, s1: Store, s': Store, written: Id)
    requires s1.refs == s.refs && OthersStay(s1, s', written) && forall id :: Read(s1, id) == Read(s, id)
    ensures OthersStay(s, s', written)
  {
    hide Read;
  }

  lemma InactiveReadsNothing(s: Store)
    ensures forall id :: !Active(s, id) ==> Read(s, id) == None
  {
  }

  /** What a lookup finds: a newest live reference with the name, in the scope, and of the origin if one is asked for. */
  lemma FoundNamed(s: Store, q: Query, target: Option<Id>)
    requires Finds(ActiveTags(s), q, target)
    ensures target.Some? ==>
              && Named(s, target.value, q.user, q.workspace, q.filename, q.session)
              && (q.source.Some? ==> s.refs[target.value].tag.source == q.source.value)
    ensures forall id :: Named(s, id, q.user, q.workspace, q.filename, q.session)
                         && (q.source.Some? ==> s.refs[id].tag.source == q.source.value) ==>
              target.Some? && s.refs[id].tag.createdAt <= s.refs[target.value].tag.createdAt
  {
    var tags := ActiveTags(s);
    forall id | Named(s, id, q.user, q.workspace, q.filename, q.session)
                && (q.source.Some? ==> s.refs[id].tag.source == q.source.value)
      ensures target.Some? && s.refs[id].tag.createdAt <= s.refs[target.value].tag.createdAt
    {
      assert id in tags && Answers(tags[id], q);
    }
  }

  /** A sync for a session writes a reference of exactly that session; for none, or the empty one, it writes one of the
    * whole workspace. It is a newest live one of that name and scope, or a new one if there is none, and nothing else
    * changes: no other session's reference, and, for a session, none of the workspace. */
  lemma SyncEffect(env: Env, s: Store, content: Bytes, tag: Tag, target: Option<Id>)
    requires CollisionFree(env) && Sound(env, s) && Fits(env, s, SyncOp(content, tag, target))
    ensures var (s', outcome) := Perform(env, s, SyncOp(content, tag, target));
            var filename := env.safeWorkspacePath(tag.filename);
            var session := if tag.session.Some? && tag.session.value != "" then tag.session else None;
            && outcome.Done? && OthersStay(s, s', outcome.ref) && ReadsBack(env, s, content, s', outcome.ref)
            && Named(s', outcome.ref, tag.user, tag.workspace, filename, session)
            && (forall id :: Named(s, id, tag.user, tag.workspace, filename, session) ==>
                  Active(s, outcome.ref) && s.refs[id].tag.createdAt <= s.refs[outcome.ref].tag.createdAt)
            && (Active(s, outcome.ref) ==> Named(s, outcome.ref, tag.user, tag.workspace, filename, session)
                                           && s'.refs[outcome.ref].tag == s.refs[outcome.ref].tag)
            && (!Active(s, outcome.ref) ==> outcome.ref == s.nextRef && s'.refs[outcome.ref].tag.source == Workspace
                                            && s'.refs[outcome.ref].tag.createdAt == tag.createdAt)
            && (forall id :: Active(s, id) && s.refs[id].tag.session != session ==> Read(s', id) == Read(s, id))
  {
    FoundNamed(s, SyncQuery(env, tag), target);
    PointAtEffect(env, s, content, SyncTag(env, tag), target);
    FreshIsNotActive(env, s);
    hide Sound, EnsureAsset, PointAt, Read, ReadsBack, CollisionFree, Finds, ActiveTags;
  }

  lemma FreshIsNotActive(env: Env, s: Store)
    requires Sound(env, s)
    ensures !Active(s, s.nextRef)
  {
  }

  /** A creation adds a reference under the sanitised name, of the given session or of none. */
  lemma CreateEffect(env: Env, s: Store, content: Bytes, tag: Tag)
    requires CollisionFree(env) && Sound(env, s)
    ensures var (s', outcome) := Perform(env, s, CreateOp(content, tag));
            && outcome == Done(s.nextRef) && !Active(s, s.nextRef)
            && OthersStay(s, s', s.nextRef) && ReadsBack(env, s, content, s', s.nextRef)
            && Named(s', s.nextRef, tag.user, tag.workspace, env.safeFilename(tag.filename),
                     if tag.session.Some? && tag.session.value != "" then tag.session else None)
            && s'.refs[s.nextRef].tag.source == tag.source && s'.refs[s.nextRef].tag.createdAt == tag.createdAt
  {
    CreatePoints(env, s, content, tag);
    PointAtEffect(env, s, content, tag.(filename := env.safeFilename(tag.filename), session := Scope(tag.session)), None);
    FreshIsNotActive(env, s);
    hide Sound, EnsureAsset, PointAt, Read, ReadsBack, CollisionFree;
  }

  /** A promotion of a live reference the caller may see makes a newest reference of the whole workspace with that name
    * and origin read what the promoted one reads, or adds such a reference; a reference of a session, or of another
    * origin, is never overwritten. Anything else is refused and changes nothing. */
  lemma PromoteEffect(env: Env, s: Store, user: string, workspace: string, id: Id, filename: Option<string>, now: nat,
                      target: Option<Id>)
    requires Sound(env, s) && Fits(env, s, PromoteOp(user, workspace, id, filename, now, target))
    ensures var (s', outcome) := Perform(env, s, PromoteOp(user, workspace, id, filename, now, target));
            && (!(Active(s, id) && s.refs[id].tag.user == user && s.refs[id].tag.workspace == workspace) ==>
                  s' == s && outcome == RefNotFound)
            && (Active(s, id) && s.refs[id].tag.user == user && s.refs[id].tag.workspace == workspace ==>
                  var name := env.safeWorkspacePath(if filename.Some? then filename.value else s.refs[id].tag.filename);
                  && outcome.Done? && OthersStay(s, s', outcome.ref) && Read(s', outcome.ref) == Read(s, id)
                  && Named(s', outcome.ref, user, workspace, name, None) && s'.refs[outcome.ref].tag.source == Workspace
                  && (forall other :: Named(s, other, user, workspace, name, None) && s.refs[other].tag.source == Workspace ==>
                        Active(s, outcome.ref) && s.refs[other].tag.createdAt <= s.refs[outcome.ref].tag.createdAt)
                  && (Active(s, outcome.ref) ==> Named(s, outcome.ref, user, workspace, name, None)
                                                 && s.refs[outcome.ref].tag.source == Workspace
                                                 && s'.refs[outcome.ref].tag == s.refs[outcome.ref].tag)
                  && (!Active(s, outcome.ref) ==> outcome.ref == s.nextRef && s'.refs[outcome.ref].tag.createdAt == now))
  {
    FreshIsNotActive(env, s);
    if Seen(s, user, workspace, id) && !s.refs[id].deleted {
      var tag, a := PromoteTag(env, s.refs[id].tag, filename, now), s.refs[id].assetId;
      assert a in s.assets;
      hide Sound, Full;
      FoundNamed(s, PromoteQuery(tag), target);
      PointAtDetails(env, s, a, tag, target);
      assert Perform(env, s, PromoteOp(user, workspace, id, filename, now, target)) == PointAt(s, a, tag, target);
      assert Read(s, id) == BytesOf(s, a);
      hide PointAt, Finds, ActiveTags, Read, BytesOf, Perform;
    }
  }

  /** A deletion marks the one row the caller may see, and a purge drops exactly the rows of the user's session. */
  lemma RetireEffect(env: Env, s: Store, user: string, workspace: string, id: Id, session: string)
    ensures var (s', outcome) := Perform(env, s, DeleteOp(user, workspace, id));
            var visible := id in s.refs && s.refs[id].tag.user == user && s.refs[id].tag.workspace == workspace;
            && outcome == (if visible then Done(id) else RefNotFound) && !(visible && Active(s', id))
            && s'.refs.Keys == s.refs.Keys
            && (forall other :: other in s.refs && !(visible && other == id) ==> s'.refs[other] == s.refs[other])
            && (visible ==> s'.refs[id] == s.refs[id].(deleted := true))
    ensures var s' := Perform(env, s, PurgeOp(user, session)).0;
            forall other :: other in s.refs ==>
              (other !in s'.refs <==> s.refs[other].tag.user == user && s.refs[other].tag.session == Some(session))
              && (other in s'.refs ==> s'.refs[other] == s.refs[other])
  {
  }

  /** A created reference reads the bytes it was given, except when a record for their digest is there
    * without its file. */
  lemma CreatedReadsBack(env: Env, s: Store, content: Bytes, tag: Tag)
    requires CollisionFree(env) && Sound(env, s)
    ensures var (s', outcome) := Created(env, s, content, tag);
            && outcome == Done(s.nextRef)
            && (Read(s', s.nextRef) == Some(content) <==>
                 (AssetFor(s, env.sha256(content)).Some? ==> env.sha256(content) in s.files))
  {
  }

  /** The failing family on one input: store bytes, delete the reference, collect (which fails on the
    * foreign key after unlinking the file), store the same bytes again: the new reference reads nothing. */
  lemma BlockedCollectionLosesBytes(env: Env, content: Bytes, tag: Tag)
    requires CollisionFree(env)
    ensures var s1 := Created(env, EMPTY_STORE, content, tag).0;
            var s2 := Deleted(s1, tag.user, tag.workspace, 0).0;
            && Lists(s2, [0]) && Collect(s2, [0], 0).1 == ForeignKeyFailed
            && var s3 := Collect(s2, [0], 0).0;
               var (s4, outcome) := Created(env, s3, content, tag);
               outcome.Done? && Active(s4, outcome.ref) && Read(s4, outcome.ref) == None
  {
  }

  // ---------------------------------------------------------------- the service

  lemma {:induction false} NewestExists(tags: map<Id, Tag>, ids: set<Id>) returns (newest: Id)
    requires ids != {} && forall id :: id in ids ==> id in tags
    ensures newest in ids && forall id :: id in ids ==> tags[id].createdAt <= tags[newest].createdAt
    decreases ids
  {
    newest :| newest in ids;
    if ids != {newest} {
      var rest := NewestExists(tags, ids - {newest});
      assert ids == {newest} + (ids - {newest});
      if tags[newest].createdAt < tags[rest].createdAt { newest := rest; }
    }
  }

  class LocalFileAssetService {
    const env: Env
    var assets: map<Id, Asset>
    var refs: map<Id, Ref>
    var files: map<Digest, Bytes>
    var nextAsset: Id
    var nextRef: Id

    constructor (env: Env)
      ensures this.env == env && View() == EMPTY_STORE
    {
      this.env := env;
      assets, refs, files, nextAsset, nextRef := map[], map[], map[], 0, 0;
    }

    function View(): Store
      reads this
    {
      Store(assets, refs, files, nextAsset, nextRef)
    }

    /** The stored asset with this digest, if any. */
    method FindBySha256(digest: Digest) returns (found: Option<Id>)
      requires UniqueDigests(assets)
      ensures found == AssetFor(View(), digest)
    {
      if id :| id in assets && assets[id].sha256 == digest {
        found := Some(id);
      } else {
        found := None;
      }
    }

    /** A newest live reference answering the query. */
    method FindActiveByFilename(q: Query) returns (target: Option<Id>)
      ensures Finds(ActiveTags(View()), q, target)
    {
      var tags := ActiveTags(View());
      var matching := set id | id in tags && Answers(tags[id], q);
      if matching == {} {
        target := None;
        assert forall id :: id in tags && Answers(tags[id], q) ==> id in matching;
      } else {
        ghost var newest := NewestExists(tags, matching);
        var id :| id in matching && forall other :: other in matching ==> tags[other].createdAt <= tags[id].createdAt;
        target := Some(id);
      }
    }

    /** The asset for these bytes, written to disk and recorded when the digest is new. */
    method StoreBytes(content: Bytes) returns (assetId: Id)
      requires UniqueDigests(assets)
      modifies `assets, `files, `nextAsset
      ensures (View(), assetId) == EnsureAsset(env, old(View()), content)
    {
      var digest := env.sha256(content);
      var existing := FindBySha256(digest);
      if existing.Some? {
        return existing.value;
      }
      files := files[digest := content];
      assetId := nextAsset;
      assets := assets[assetId := Asset(digest, |content|)];
      nextAsset := nextAsset + 1;
    }

    method CreateRef(content: Bytes, tag: Tag) returns (outcome: Outcome)
      requires UniqueDigests(assets)
      modifies `assets, `files, `nextAsset, `refs, `nextRef
      ensures (View(), outcome) == Created(env, old(View()), content, tag)
    {
      var assetId := StoreBytes(content);
      var stored := tag.(filename := env.safeFilename(tag.filename), session := Scope(tag.session));
      refs := refs[nextRef := Ref(assetId, stored, false)];
      outcome := Done(nextRef);
      nextRef := nextRef + 1;
    }

    /** Also reports the lookup's answer, which picks among equally new rows. */
    method SyncWorkspaceFile(content: Bytes, tag: Tag) returns (outcome: Outcome, ghost target: Option<Id>)
      requires UniqueDigests(assets)
      modifies `assets, `files, `nextAsset, `refs, `nextRef
      ensures Fits(env, old(View()), SyncOp(content, tag, target))
      ensures (View(), outcome) == Synced(env, old(View()), content, tag, target)
    {
      var assetId := StoreBytes(content);
      var existing := FindActiveByFilename(SyncQuery(env, tag));
      target := existing;
      if existing.None? {
        refs := refs[nextRef := Ref(assetId, SyncTag(env, tag), false)];
        outcome := Done(nextRef);
        nextRef := nextRef + 1;
      } else if refs[existing.value].assetId == assetId {
        assert refs[existing.value := refs[existing.value].(assetId := assetId)] == refs;
        outcome := Done(existing.value);
      } else {
        refs := refs[existing.value := refs[existing.value].(assetId := assetId)];
        outcome := Done(existing.value);
      }
    }

    method PromoteFileToWorkspace(user: string, workspace: string, id: Id, filename: Option<string>, now: nat)
      returns (outcome: Outcome, ghost target: Option<Id>)
      modifies `refs, `nextRef
      ensures Fits(env, old(View()), PromoteOp(user, workspace, id, filename, now, target))
      ensures (View(), outcome) == Promoted(env, old(View()), user, workspace, id, filename, now, target)
    {
      target := None;
      if !Seen(View(), user, workspace, id) || refs[id].deleted {
        return RefNotFound, None;
      }
      var assetId := refs[id].assetId;
      var promoted := PromoteTag(env, refs[id].tag, filename, now);
      var existing := FindActiveByFilename(PromoteQuery(promoted));
      target := existing;
      if assetId !in assets {
        return AssetNotFound, existing;
      }
      if existing.None? {
        refs := refs[nextRef := Ref(assetId, promoted, false)];
        outcome := Done(nextRef);
        nextRef := nextRef + 1;
      } else if refs[existing.value].assetId == assetId {
        assert refs[existing.value := refs[existing.value].(assetId := assetId)] == refs;
        outcome := Done(existing.value);
      } else {
        refs := refs[existing.value := refs[existing.value].(assetId := assetId)];
        outcome := Done(existing.value);
      }
    }

    method DeleteRef(user: string, workspace: string, id: Id) returns (outcome: Outcome)
      modifies `refs
      ensures (View(), outcome) == Deleted(old(View()), user, workspace, id)
    {
      if !Seen(View(), user, workspace, id) {
        return RefNotFound;
      }
      refs := refs[id := refs[id].(deleted := true)];
      outcome := Done(id);
    }

    method ReadRef(user: string, workspace: string, id: Id) returns (bytes: Option<Bytes>)
      ensures bytes == (if Seen(View(), user, workspace, id) then Read(View(), id) else None)
    {
      if !Seen(View(), user, workspace, id) || refs[id].deleted || refs[id].assetId !in assets {
        return None;
      }
      var digest := assets[refs[id].assetId].sha256;
      bytes := if digest in files then Some(files[digest]) else None;
    }

    /** The orphaned assets, each once. */
    method ListOrphans() returns (orphans: seq<Id>)
      ensures Lists(View(), orphans)
    {
      var rest := set a | a in assets && Orphan(View(), a);
      orphans := [];
      while rest != {}
        invariant forall a :: Orphan(View(), a) <==> a in orphans || a in rest
        invariant forall a :: a in orphans ==> a !in rest
        invariant Distinct(orphans)
        decreases rest
      {
        var a :| a in rest;
        rest := rest - {a};
        orphans := orphans + [a];
      }
    }

    /** Drops each orphan's file and record until the table refuses one. */
    method GcOrphanAssets() returns (outcome: Outcome, ghost listed: seq<Id>)
      modifies `assets, `files
      ensures Lists(old(View()), listed)
      ensures (View(), outcome) == Collect(old(View()), listed, 0)
    {
      var orphans := ListOrphans();
      listed := orphans;
      var removed := 0;
      while removed < |orphans|
        invariant 0 <= removed <= |orphans|
        invariant refs == old(refs) && nextAsset == old(nextAsset) && nextRef == old(nextRef)
        invariant forall a :: a in orphans[removed..] ==> a in assets
        invariant Distinct(orphans[removed..])
        invariant Collect(View(), orphans[removed..], removed) == Collect(old(View()), orphans, 0)
      {
        var a := orphans[removed];
        assert a in orphans[removed..];
        assert orphans[removed..][1..] == orphans[removed + 1..];
        files := files - {assets[a].sha256};
        if id :| id in refs && refs[id].assetId == a {
          return ForeignKeyFailed, orphans;
        }
        assets := assets - {a};
        removed := removed + 1;
      }
      outcome := Removed(removed);
    }
  }
}
