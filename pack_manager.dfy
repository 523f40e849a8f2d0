/** The local pack library (packManager.ts): a list of saved packs and the
    id of the one being edited, kept in an index that is written to
    browser storage after every change. The pack zips themselves, the
    clock and the id generator are not part of this model; the time and
    the new id are passed in. */
module PackManager {
  import opened Wrappers
  import opened PackTypes

  datatype LocalPackEntry = LocalPackEntry(id: string, name: string, packId: string, updatedAt: int)

  /** `StoredPackIndex`; an absent `currentId` is `None`. */
  datatype StoredPackIndex = StoredPackIndex(version: int, currentId: Option<string>, entries: seq<LocalPackEntry>)

  /** What `typeof parsed.currentId` tells apart. */
  datatype IdField = IdAbsent | IdString(s: string) | IdOther

  /** What `JSON.parse` may give: anything that is not an object (null and
      the other primitives, none of which has a `version`), or an object
      with its `version` test, its `currentId` and, when it is an array,
      its `entries`. */
  datatype ParsedIndex =
    | NotAnObject
    | IndexObject(versionIsOne: bool, currentId: IdField, entries: Option<seq<LocalPackEntry>>)

  function EmptyIndex(): StoredPackIndex {
    StoredPackIndex(1, None, [])
  }

  /** `safeParseIndex`: an index of version 1 always; the stored entries
      only when the text parses to an object of version 1 with an array of
      entries; the stored current id only when it is a non-empty string.
      `parse` stands for `JSON.parse`, `None` for a parse that throws. */
  function SafeParseIndex(parse: string -> Option<ParsedIndex>, raw: Option<string>): (r: StoredPackIndex)
    ensures r.version == 1
    ensures r.currentId.Some? ==> r.currentId.value != ""
    ensures (raw.None? || raw == Some("") || parse(raw.value).None?
             || !parse(raw.value).value.IndexObject? || !parse(raw.value).value.versionIsOne
             || parse(raw.value).value.entries.None?)
            ==> r == EmptyIndex()
    ensures raw.Some? && raw.value != "" && parse(raw.value).Some? && parse(raw.value).value.IndexObject?
            && parse(raw.value).value.versionIsOne && parse(raw.value).value.entries.Some?
            ==> var p := parse(raw.value).value;
                && r.entries == p.entries.value
                && (r.currentId.Some? <==> p.currentId.IdString? && p.currentId.s != "")
                && (r.currentId.Some? ==> r.currentId == Some(p.currentId.s))
  {
    if raw.None? || raw.value == "" then EmptyIndex()
    else
      match parse(raw.value)
      case None => EmptyIndex()
      case Some(NotAnObject) => EmptyIndex()
      case Some(IndexObject(versionIsOne, currentId, entries)) =>
        if !versionIsOne || entries.None? then EmptyIndex()
        else if currentId.IdString? && currentId.s != "" then StoredPackIndex(1, Some(currentId.s), entries.value)
        else StoredPackIndex(1, None, entries.value)
  }

  /** The index `persist` writes: the current id is left out when it is
      null or empty. */
  function IndexOf(currentId: Option<string>, entries: seq<LocalPackEntry>): (r: StoredPackIndex)
    ensures r.version == 1 && r.entries == entries
    ensures r.currentId.Some? <==> currentId.Some? && currentId.value != ""
    ensures r.currentId.Some? ==> r.currentId == currentId
  {
    if currentId.Some? && currentId.value != "" then StoredPackIndex(1, currentId, entries)
    else StoredPackIndex(1, None, entries)
  }

  /** The JSON text of an index reads back as the same index. */
  ghost predicate JsonRoundTrips(serialize: StoredPackIndex -> string, parse: string -> Option<ParsedIndex>) {
    forall ix :: serialize(ix) != "" &&
      parse(serialize(ix)) == Some(IndexObject(ix.version == 1,
                                               if ix.currentId.Some? then IdString(ix.currentId.value) else IdAbsent,
                                               Some(ix.entries)))
  }

  /** What `persist` writes, `safeParseIndex` reads back unchanged; so a
      reload restores the entries and the current id, except that an empty
      current id comes back as null. */
  lemma {:induction false} PersistRoundTrip(serialize: StoredPackIndex -> string, parse: string -> Option<ParsedIndex>,
                                            currentId: Option<string>, entries: seq<LocalPackEntry>)
    requires JsonRoundTrips(serialize, parse)
    ensures SafeParseIndex(parse, Some(serialize(IndexOf(currentId, entries)))) == IndexOf(currentId, entries)
  {
    var ix := IndexOf(currentId, entries);
    assert serialize(ix) != "";
    assert parse(serialize(ix)) == Some(IndexObject(true, if ix.currentId.Some? then IdString(ix.currentId.value) else IdAbsent,
                                                    Some(ix.entries)));
  }

  /** The index of the first entry whose id is `id` (`find`); a null id
      matches nothing. */
  function FindIndex(es: seq<LocalPackEntry>, id: Option<string>): (r: Option<nat>)
    ensures r.Some? ==> r.value < |es| && Some(es[r.value].id) == id
    ensures r.Some? ==> forall k :: 0 <= k < r.value ==> Some(es[k].id) != id
    ensures r.None? <==> forall k :: 0 <= k < |es| ==> Some(es[k].id) != id
    decreases |es|
  {
    if |es| == 0 then None
    else if Some(es[0].id) == id then Some(0)
    else
      match FindIndex(es[1..], id)
      case None => None
      case Some(i) => Some(i + 1)
  }

  /** `entries.find((e) => e.id === id) || null`. */
  function FindEntry(es: seq<LocalPackEntry>, id: Option<string>): (r: Option<LocalPackEntry>)
    ensures r.Some? ==> r.value in es && Some(r.value.id) == id
    ensures r.None? <==> forall e :: e in es ==> Some(e.id) != id
  {
    match FindIndex(es, id)
    case None => None
    case Some(i) => Some(es[i])
  }

  /** `entries.filter((e) => e.id !== id)`. */
  function RemoveId(es: seq<LocalPackEntry>, id: string): (r: seq<LocalPackEntry>)
    ensures forall e :: e in r <==> e in es && e.id != id
    ensures |r| <= |es|
    ensures (forall e :: e in es ==> e.id != id) ==> r == es
    decreases |es|
  {
    if |es| == 0 then []
    else if es[0].id == id then RemoveId(es[1..], id)
    else [es[0]] + RemoveId(es[1..], id)
  }

  /** Removing other ids leaves the first entry with a given id first. */
  lemma {:induction false} RemoveKeepsFind(es: seq<LocalPackEntry>, id: string, current: Option<string>)
    requires current != Some(id)
    ensures FindEntry(RemoveId(es, id), current) == FindEntry(es, current)
    decreases |es|
  {
    if |es| > 0 {
      RemoveKeepsFind(es[1..], id, current);
      var rest := RemoveId(es[1..], id);
      if es[0].id == id {
        assert Some(es[0].id) != current;
        FindIndexTail(es, current);
      } else {
        assert RemoveId(es, id) == [es[0]] + rest;
        assert ([es[0]] + rest)[1..] == rest;
        FindIndexTail([es[0]] + rest, current);
        FindIndexTail(es, current);
      }
    }
  }

  /** One step of `find`: a list whose head does not match finds what its
      tail finds. */
  lemma {:induction false} FindIndexTail(es: seq<LocalPackEntry>, id: Option<string>)
    requires |es| > 0
    ensures Some(es[0].id) == id ==> FindEntry(es, id) == Some(es[0])
    ensures Some(es[0].id) != id ==> FindEntry(es, id) == FindEntry(es[1..], id)
  {
    if Some(es[0].id) != id {
      match FindIndex(es[1..], id)
      case None =>
      case Some(i) => assert es[1..][i] == es[i + 1];
    }
  }

  /** The name a saved entry gets: the given name, else the pack's display
      name, else its pack id. */
  function EntryName(given: Option<string>, m: PackManifest): (r: string)
    ensures Truthy(given) ==> r == given.value
    ensures !Truthy(given) && m.displayName != "" ==> r == m.displayName
    ensures !Truthy(given) && m.displayName == "" ==> r == m.packId
  {
    if Truthy(given) then given.value
    else if m.displayName != "" then m.displayName
    else m.packId
  }

  /** An entry after `saveToExisting`: same id, the pack's id and name, the
      save time. */
  function Resaved(e: LocalPackEntry, m: PackManifest, time: int): (r: LocalPackEntry)
    ensures r.id == e.id && r.packId == m.packId && r.name == EntryName(None, m) && r.updatedAt == time
  {
    e.(packId := m.packId, name := EntryName(None, m), updatedAt := time)
  }

  datatype SaveError = NoCurrentPack | EntryNotFound

  class Library {
    var entries: seq<LocalPackEntry>
    var currentId: Option<string>
    /** The index last written to storage, if any. */
    var saved: Option<StoredPackIndex>

    /** The store starts from the stored index. */
    constructor(parse: string -> Option<ParsedIndex>, raw: Option<string>)
      ensures entries == SafeParseIndex(parse, raw).entries
      ensures currentId == SafeParseIndex(parse, raw).currentId
      ensures saved == None
    {
      var ix := SafeParseIndex(parse, raw);
      entries := ix.entries;
      currentId := ix.currentId;
      saved := None;
    }

    /** `currentEntry`. */
    function CurrentEntry(): (r: Option<LocalPackEntry>)
      reads this
      ensures r.Some? ==> r.value in entries && Some(r.value.id) == currentId
      ensures r.None? <==> forall e :: e in entries ==> Some(e.id) != currentId
    {
      FindEntry(entries, currentId)
    }

    /** `persist`. */
    method Persist()
      modifies this`saved
      ensures saved == Some(IndexOf(currentId, entries))
    {
      saved := Some(IndexOf(currentId, entries));
    }

    /** `saveToExisting`: with no current id, or no entry carrying it, it
        fails and changes nothing; otherwise only the first such entry is
        updated, and the index is written. */
    method SaveToExisting(m: PackManifest, time: int) returns (r: Result<(), SaveError>)
      modifies this
      ensures old(currentId).None? || old(currentId) == Some("") ==> r == Err(NoCurrentPack) && unchanged(this)
      ensures old(currentId).Some? && old(currentId) != Some("") && FindIndex(old(entries), old(currentId)).None?
              ==> r == Err(EntryNotFound) && unchanged(this)
      ensures old(currentId).Some? && old(currentId) != Some("") && FindIndex(old(entries), old(currentId)).Some?
              ==> var i := FindIndex(old(entries), old(currentId)).value;
                  && r.Ok?
                  && entries == old(entries)[i := Resaved(old(entries)[i], m, time)]
                  && currentId == old(currentId)
                  && saved == Some(IndexOf(currentId, entries))
    {
      if currentId.None? || currentId.value == "" {
        return Err(NoCurrentPack);
      }
      var i := FindIndex(entries, currentId);
      if i.None? {
        return Err(EntryNotFound);
      }
      entries := entries[i.value := Resaved(entries[i.value], m, time)];
      Persist();
      r := Ok(());
    }

    /** `saveAs`: one new entry in front, made current, and the index
        written. */
    method SaveAs(name: Option<string>, m: PackManifest, id: string, time: int)
      modifies this
      ensures entries == [LocalPackEntry(id, EntryName(name, m), m.packId, time)] + old(entries)
      ensures currentId == Some(id)
      ensures CurrentEntry() == Some(entries[0])
      ensures saved == Some(IndexOf(currentId, entries))
    {
      entries := [LocalPackEntry(id, EntryName(name, m), m.packId, time)] + entries;
      currentId := Some(id);
      FindIndexTail(entries, currentId);
      Persist();
    }

    /** `deleteLocalPack`: every entry with the id goes, the current id is
        cleared exactly when it was that id, any other current entry stays
        current, and the index is written. */
    method DeleteLocalPack(id: string)
      modifies this
      ensures entries == RemoveId(old(entries), id)
      ensures currentId == if old(currentId) == Some(id) then None else old(currentId)
      ensures old(currentId) == Some(id) ==> CurrentEntry() == None
      ensures old(currentId) != Some(id) ==> CurrentEntry() == FindEntry(old(entries), old(currentId))
      ensures saved == Some(IndexOf(currentId, entries))
    {
      if currentId != Some(id) {
        RemoveKeepsFind(entries, id, currentId);
      }
      entries := RemoveId(entries, id);
      if currentId == Some(id) {
        currentId := None;
      }
      Persist();
    }

    /** `selectCurrent`. */
    method SelectCurrent(id: Option<string>)
      modifies this
      ensures entries == old(entries) && currentId == id
      ensures saved == Some(IndexOf(id, entries))
    {
      currentId := id;
      Persist();
    }
  }
}
