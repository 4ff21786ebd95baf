/** What loading the credential directory computes: the identity-to-key maps built from
    the directory's entries, in iteration order, or the error that aborts the load. */
module KeyLoading {
  import opened Wrappers
  import opened OpenSsl
  import opened TokenNames

  /** One directory entry as the loader meets it: its leaf name, whether it is a
      regular file (the filter iterator drops the rest), whether it opens for
      reading, and its contents. */
  datatype Entry = Entry(name: string, isRegular: bool, readable: bool, contents: Bytes)

  /** The state of the token path before loading. A missing path is created (which
      may fail); a created directory is empty. */
  datatype TokenDir = Missing(creatable: bool) | NotDirectory | Directory(entries: seq<Entry>)

  /** Why construction of the store fails. */
  datatype LoadError =
    | CannotCreate(path: string)        // "cannot create <path>"
    | NotADirectory(path: string)       // "<path> is not a directory"
    | NameWithoutType(name: string)     // `substr(npos)` on a name with no '.'

  /** The two identity-keyed maps the store holds. */
  datatype KeyMaps = KeyMaps(publicKeys: map<string, Key>, privateKeys: map<string, Key>) {
    function Of(kind: KeyKind): map<string, Key> {
      match kind
      case Public => publicKeys
      case Private => privateKeys
    }
  }

  const NoKeys := KeyMaps(map[], map[])

  /** The suffix appended to the configured storage path to name the token directory. */
  const TokensSuffix := ".tokens"

  function TokensPath(storage: string): string {
    storage + TokensSuffix
  }

  /** The file type that holds keys of the given kind. */
  function TypeOf(kind: KeyKind): string {
    match kind
    case Public => ".public"
    case Private => ".private"
  }

  /** The key kind a file type names, if any; every other type is ignored with a warning. */
  function KindOf(keyType: string): (r: Option<KeyKind>)
    ensures forall kind :: r == Some(kind) <==> keyType == TypeOf(kind)
  {
    if keyType == ".public" then Some(Public)
    else if keyType == ".private" then Some(Private)
    else None
  }

  function Lookup(m: map<string, Key>, id: string): Option<Key> {
    if id in m then Some(m[id]) else None
  }

  /** `std::map::insert`: binds `id` only when it is not bound yet. */
  function Bind(m: map<string, Key>, id: string, key: Key): (r: map<string, Key>)
    ensures r.Keys == m.Keys + {id}
    ensures forall other :: other in m ==> r[other] == m[other]
    ensures r[id] == if id in m then m[id] else key
  {
    if id in m then m else m[id := key]
  }

  /** One turn of the loading loop. It fails exactly on a regular, readable file whose
      name has no `.`; the open check comes before the split, so an unreadable one is
      skipped. */
  function Step(acc: KeyMaps, e: Entry, crypto: Crypto): (r: Result<KeyMaps, LoadError>)
    ensures r.Failure? <==> Untyped(e)
    ensures r.Failure? ==> r.error == NameWithoutType(e.name)
  {
    if !e.isRegular || !e.readable then Success(acc)
    else match SplitName(e.name)
      case None => Failure(NameWithoutType(e.name))
      case Some(split) =>
        match KindOf(split.keyType)
        case None => Success(acc)
        case Some(kind) =>
          match crypto.ReadKey(kind, e.contents)
          case None => Success(acc)
          case Some(key) =>
            if kind == Public then Success(acc.(publicKeys := Bind(acc.publicKeys, split.identity, key)))
            else Success(acc.(privateKeys := Bind(acc.privateKeys, split.identity, key)))
  }

  /** The loading loop over the remaining entries, from the maps built so far. A
      successful loop keeps every binding made before it. */
  function ScanFrom(acc: KeyMaps, entries: seq<Entry>, crypto: Crypto): (r: Result<KeyMaps, LoadError>)
    ensures r.Success? ==> acc.publicKeys.Keys <= r.value.publicKeys.Keys
    ensures r.Success? ==> acc.privateKeys.Keys <= r.value.privateKeys.Keys
    ensures r.Success? ==> forall id :: id in acc.publicKeys ==> r.value.publicKeys[id] == acc.publicKeys[id]
    ensures r.Success? ==> forall id :: id in acc.privateKeys ==> r.value.privateKeys[id] == acc.privateKeys[id]
    decreases |entries|
  {
    if entries == [] then Success(acc)
    else match Step(acc, entries[0], crypto)
      case Failure(err) => Failure(err)
      case Success(next) => ScanFrom(next, entries[1..], crypto)
  }

  /** Unfolds the loop once at position `i`. */
  lemma ScanAt(acc: KeyMaps, entries: seq<Entry>, i: nat, crypto: Crypto)
    requires i < |entries|
    ensures ScanFrom(acc, entries[i..], crypto) ==
              match Step(acc, entries[i], crypto)
              case Failure(err) => Failure(err)
              case Success(next) => ScanFrom(next, entries[i + 1..], crypto)
  {
  }

  /** The entries the loop visits: none when the directory had to be created. */
  function EntriesOf(dir: TokenDir): seq<Entry> {
    if dir.Directory? then dir.entries else []
  }

  /** Loading as a whole: the directory checks, then the loop from empty maps. It fails
      exactly when the path is not a directory, cannot be created, or holds a regular,
      readable file without a `.`; a directory it had to create yields no keys. */
  function Load(storage: string, dir: TokenDir, crypto: Crypto): (r: Result<KeyMaps, LoadError>)
    ensures r.Failure? <==> dir == NotDirectory || dir == Missing(false) || FirstUntyped(EntriesOf(dir)).Some?
    ensures dir.Missing? && r.Success? ==> r.value == NoKeys
  {
    match dir
    case Missing(creatable) =>
      if creatable then Success(NoKeys) else Failure(CannotCreate(TokensPath(storage)))
    case NotDirectory => Failure(NotADirectory(TokensPath(storage)))
    case Directory(entries) =>
      ScanFailsAtFirstUntyped(NoKeys, entries, crypto);
      ScanFrom(NoKeys, entries, crypto)
  }

  // ---- Reference definitions, stated entry by entry rather than as a loop ----

  /** `e` is a regular, readable file named `<id><type of kind>` whose contents parse. */
  predicate Supplies(e: Entry, crypto: Crypto, kind: KeyKind, id: string) {
    && e.isRegular && e.readable
    && SplitName(e.name) == Some(Split(id, TypeOf(kind)))
    && crypto.ReadKey(kind, e.contents).Some?
  }

  /** Names within one directory are distinct. */
  predicate DistinctNames(entries: seq<Entry>) {
    forall i, j :: 0 <= i < j < |entries| ==> entries[i].name != entries[j].name
  }

  /** In a real directory at most one entry supplies a given identity and kind, since
      its name must be `<id><type of kind>`; so "the first supplier" never has to choose. */
  lemma SupplierUnique(entries: seq<Entry>, crypto: Crypto, kind: KeyKind, id: string, i: nat, j: nat)
    requires DistinctNames(entries)
    requires i < |entries| && j < |entries|
    requires Supplies(entries[i], crypto, kind, id) && Supplies(entries[j], crypto, kind, id)
    ensures i == j
  {
    assert entries[i].name == id + TypeOf(kind) == entries[j].name;
  }

  /** The key of the first entry that supplies `id` with a key of the given kind. */
  function FirstKey(entries: seq<Entry>, crypto: Crypto, kind: KeyKind, id: string): Option<Key>
    decreases |entries|
  {
    if entries == [] then None
    else if Supplies(entries[0], crypto, kind, id) then crypto.ReadKey(kind, entries[0].contents)
    else FirstKey(entries[1..], crypto, kind, id)
  }

  /** `e` is a regular, readable file whose name has no `.`. */
  predicate Untyped(e: Entry) {
    e.isRegular && e.readable && '.' !in e.name
  }

  /** The name of the first entry the loop cannot split. */
  function FirstUntyped(entries: seq<Entry>): Option<string>
    decreases |entries|
  {
    if entries == [] then None
    else if Untyped(entries[0]) then Some(entries[0].name)
    else FirstUntyped(entries[1..])
  }

  // ---- Properties ----

  /** One turn changes a binding only when the entry supplies a key for an identity
      not yet bound in that map; it never replaces a binding. */
  lemma StepEffect(acc: KeyMaps, e: Entry, crypto: Crypto, kind: KeyKind, id: string)
    requires Step(acc, e, crypto).Success?
    ensures Lookup(Step(acc, e, crypto).value.Of(kind), id) ==
              if id in acc.Of(kind) then Some(acc.Of(kind)[id])
              else if Supplies(e, crypto, kind, id) then crypto.ReadKey(kind, e.contents)
              else None
  {
    var split := SplitName(e.name);
    if e.isRegular && e.readable && split.Some? && KindOf(split.value.keyType).Some? {
      var k := KindOf(split.value.keyType).value;
      assert Supplies(e, crypto, kind, id) ==> k == kind && split.value.identity == id;
    }
  }

  /** Each turn grows at most one of the maps, by at most one binding, and keeps every
      binding already made. */
  lemma StepGrowsAtMostOne(acc: KeyMaps, e: Entry, crypto: Crypto)
    requires Step(acc, e, crypto).Success?
    ensures var next := Step(acc, e, crypto).value;
      && acc.publicKeys.Keys <= next.publicKeys.Keys
      && acc.privateKeys.Keys <= next.privateKeys.Keys
      && (forall id :: id in acc.publicKeys ==> next.publicKeys[id] == acc.publicKeys[id])
      && (forall id :: id in acc.privateKeys ==> next.privateKeys[id] == acc.privateKeys[id])
      && (next.publicKeys == acc.publicKeys || next.privateKeys == acc.privateKeys)
      && |next.publicKeys| + |next.privateKeys| <= |acc.publicKeys| + |acc.privateKeys| + 1
  {
  }

  /** The loop fails exactly when some visited file has no `.`, and the error names the
      first such file; the loop stops there. */
  lemma {:induction false} ScanFailsAtFirstUntyped(acc: KeyMaps, entries: seq<Entry>, crypto: Crypto)
    ensures ScanFrom(acc, entries, crypto).Failure? <==> FirstUntyped(entries).Some?
    ensures ScanFrom(acc, entries, crypto).Failure? ==>
              ScanFrom(acc, entries, crypto).error == NameWithoutType(FirstUntyped(entries).value)
    decreases |entries|
  {
    if entries != [] {
      if !Untyped(entries[0]) {
        ScanFailsAtFirstUntyped(Step(acc, entries[0], crypto).value, entries[1..], crypto);
      }
    }
  }

  /** The reference definition picks the first entry that supplies `id`: there is one
      exactly when some entry supplies it, and no earlier entry does. */
  lemma {:induction false} FirstKeyIsFirstSupplier(entries: seq<Entry>, crypto: Crypto, kind: KeyKind, id: string)
    ensures FirstKey(entries, crypto, kind, id).Some? <==>
              exists j :: 0 <= j < |entries| && Supplies(entries[j], crypto, kind, id)
    ensures FirstKey(entries, crypto, kind, id).Some? ==>
              exists j :: 0 <= j < |entries| && Supplies(entries[j], crypto, kind, id)
                && FirstKey(entries, crypto, kind, id) == crypto.ReadKey(kind, entries[j].contents)
                && forall i :: 0 <= i < j ==> !Supplies(entries[i], crypto, kind, id)
    decreases |entries|
  {
    if entries != [] && !Supplies(entries[0], crypto, kind, id) {
      var rest := entries[1..];
      FirstKeyIsFirstSupplier(rest, crypto, kind, id);
      if exists j :: 0 <= j < |entries| && Supplies(entries[j], crypto, kind, id) {
        var j :| 0 <= j < |entries| && Supplies(entries[j], crypto, kind, id);
        assert Supplies(rest[j - 1], crypto, kind, id);
      }
      if FirstKey(rest, crypto, kind, id).Some? {
        var j :| 0 <= j < |rest| && Supplies(rest[j], crypto, kind, id)
                 && FirstKey(rest, crypto, kind, id) == crypto.ReadKey(kind, rest[j].contents)
                 && forall i :: 0 <= i < j ==> !Supplies(rest[i], crypto, kind, id);
        assert entries[j + 1] == rest[j];
        forall i | 0 <= i < j + 1
          ensures !Supplies(entries[i], crypto, kind, id)
        {
          if i > 0 { assert entries[i] == rest[i - 1]; }
        }
      }
    }
  }

  /** After a successful loop an identity is bound to what it was bound to before the
      loop, or else to the key of the first entry that supplies it; the first file wins. */
  lemma {:induction false} ScanKeepsFirstKey(acc: KeyMaps, entries: seq<Entry>, crypto: Crypto, kind: KeyKind, id: string)
    requires ScanFrom(acc, entries, crypto).Success?
    ensures Lookup(ScanFrom(acc, entries, crypto).value.Of(kind), id) ==
              if id in acc.Of(kind) then Some(acc.Of(kind)[id]) else FirstKey(entries, crypto, kind, id)
    decreases |entries|
  {
    if entries != [] {
      var next := Step(acc, entries[0], crypto).value;
      StepEffect(acc, entries[0], crypto, kind, id);
      ScanKeepsFirstKey(next, entries[1..], crypto, kind, id);
    }
  }

  /** A successful load binds exactly the identities some regular, readable, parseable
      file of the matching type supplies, each to the key of the first such file. */
  lemma LoadBindsFirstKey(storage: string, dir: TokenDir, crypto: Crypto, kind: KeyKind, id: string)
    requires Load(storage, dir, crypto).Success?
    ensures Lookup(Load(storage, dir, crypto).value.Of(kind), id) == FirstKey(EntriesOf(dir), crypto, kind, id)
  {
    if dir.Directory? {
      ScanKeepsFirstKey(NoKeys, dir.entries, crypto, kind, id);
    }
  }

  /** The directory checks come first; a directory that had to be created yields empty
      maps; otherwise the load fails exactly at the first file without a `.`. */
  lemma LoadOutcome(storage: string, dir: TokenDir, crypto: Crypto)
    ensures dir == NotDirectory ==> Load(storage, dir, crypto) == Failure(NotADirectory(storage + ".tokens"))
    ensures dir == Missing(false) ==> Load(storage, dir, crypto) == Failure(CannotCreate(storage + ".tokens"))
    ensures dir == Missing(true) ==> Load(storage, dir, crypto) == Success(KeyMaps(map[], map[]))
    ensures dir.Directory? ==>
              match FirstUntyped(dir.entries)
              case Some(name) => Load(storage, dir, crypto) == Failure(NameWithoutType(name))
              case None => Load(storage, dir, crypto).Success?
  {
    if dir.Directory? {
      ScanFailsAtFirstUntyped(NoKeys, dir.entries, crypto);
    }
  }
}
