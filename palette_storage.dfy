/** The saved-palette list behind `usePaletteStorage` (src/app/hooks/usePaletteStorage.ts):
    save, update and delete replace the list, guarded by name, emptiness and id checks;
    load and stats are queries over it. Ids and timestamps come from the caller. */
module PaletteStorage {
  import opened Results
  import opened Text
  import opened SeqFacts

  /** `SavedPalette`; the two dates are timestamps in milliseconds. */
  datatype SavedPalette = SavedPalette(id: string, name: string, colors: seq<string>, createdAt: int, updatedAt: int)

  /** The changes an update may carry: a new name, new colours, both or neither; an absent
      field is `None`. */
  datatype Changes = Changes(name: Option<string>, colors: Option<seq<string>>)

  /** The errors the operations throw. */
  datatype StoreError = NameRequired | NoColors | NameTaken | NotFound

  function Message(e: StoreError): string {
    match e
    case NameRequired => "El nombre de la paleta es requerido"
    case NoColors => "La paleta debe tener al menos un color"
    case NameTaken => "Ya existe una paleta con ese nombre"
    case NotFound => "Paleta no encontrada"
  }

  /** What `getStats` returns; `lastSaved` is `null` for an empty list. */
  datatype Stats = Stats(totalPalettes: nat, totalColors: nat, lastSaved: Option<int>)

  /** `findIndex(p => p.id === id)`: the first position holding `id`, or -1. */
  function IndexOfId(ps: seq<SavedPalette>, id: string): (k: int)
    ensures -1 <= k < |ps|
    ensures k >= 0 ==> ps[k].id == id && forall j :: 0 <= j < k ==> ps[j].id != id
    ensures k == -1 <==> forall j :: 0 <= j < |ps| ==> ps[j].id != id
  {
    if ps == [] then -1
    else if ps[0].id == id then 0
    else
      var k := IndexOfId(ps[1..], id);
      assert forall j :: 1 <= j < |ps| ==> ps[j] == ps[1..][j - 1];
      if k == -1 then -1 else k + 1
  }

  /** `find(p => p.name.toLowerCase() === name.toLowerCase())` finds a palette. */
  predicate NameInUse(ps: seq<SavedPalette>, name: string) {
    exists k :: 0 <= k < |ps| && Lower(ps[k].name) == Lower(name)
  }

  /** The same search restricted to palettes whose id is not `id`. */
  predicate NameInUseElsewhere(ps: seq<SavedPalette>, id: string, name: string) {
    exists k :: 0 <= k < |ps| && ps[k].id != id && Lower(ps[k].name) == Lower(name)
  }

  /** The changes rename the palette: they carry a non-empty name that differs from the
      current one other than in case. */
  predicate Renames(p: SavedPalette, changes: Changes) {
    changes.name.Some? && changes.name.value != [] && Lower(changes.name.value) != Lower(p.name)
  }

  /** The palette with each field the changes carry replaced, and the update time set to
      `now`. */
  function Merge(p: SavedPalette, changes: Changes, now: int): SavedPalette {
    SavedPalette(p.id, changes.name.GetOr(p.name), changes.colors.GetOr(p.colors), p.createdAt, now)
  }

  /** An update keeps the id and the creation date, takes the new time, and takes each field
      the changes carry, keeping the others. */
  lemma MergeKeeps(p: SavedPalette, changes: Changes, now: int)
    ensures var q := Merge(p, changes, now);
      && q.id == p.id && q.createdAt == p.createdAt && q.updatedAt == now
      && (changes.name.None? ==> q.name == p.name) && (changes.name.Some? ==> q.name == changes.name.value)
      && (changes.colors.None? ==> q.colors == p.colors) && (changes.colors.Some? ==> q.colors == changes.colors.value)
  {
  }

  /** The palettes whose id is not `id`, in their order. */
  function Without(ps: seq<SavedPalette>, id: string): (r: seq<SavedPalette>)
    ensures |r| <= |ps|
    ensures forall k :: 0 <= k < |r| ==> r[k].id != id
    ensures (forall k :: 0 <= k < |ps| ==> ps[k].id != id) ==> r == ps
  {
    if ps == [] then []
    else
      assert forall k :: 1 <= k < |ps| ==> ps[1..][k - 1] == ps[k];
      var rest := Without(ps[1..], id);
      if ps[0].id == id then rest
      else
        assert forall k :: 1 <= k < |rest| + 1 ==> ([ps[0]] + rest)[k] == rest[k - 1];
        if rest == ps[1..] then assert [ps[0]] + ps[1..] == ps; [ps[0]] + rest else [ps[0]] + rest
  }

  /** Deleting keeps exactly the palettes with another id. */
  lemma {:induction false} WithoutMembers(ps: seq<SavedPalette>, id: string, p: SavedPalette)
    ensures p in Without(ps, id) <==> p in ps && p.id != id
  {
    if ps != [] {
      WithoutMembers(ps[1..], id, p);
      var head := if ps[0].id == id then [] else [ps[0]];
      InAppend(p, head, Without(ps[1..], id));
      InAppend(p, [ps[0]], ps[1..]);
      assert [ps[0]] + ps[1..] == ps;
    }
  }

  /** Deleting keeps the order: it works piece by piece. */
  lemma {:induction false} WithoutAppend(a: seq<SavedPalette>, b: seq<SavedPalette>, id: string)
    ensures Without(a + b, id) == Without(a, id) + Without(b, id)
  {
    if a == [] {
      assert a + b == b;
    } else {
      var head := if a[0].id == id then [] else [a[0]];
      WithoutAppend(a[1..], b, id);
      assert (a + b)[0] == a[0] && (a + b)[1..] == a[1..] + b;
      AppendAssoc(head, Without(a[1..], id), Without(b, id));
    }
  }

  /** The number of colours over all palettes, summed from the front. */
  function TotalColors(ps: seq<SavedPalette>): nat {
    if ps == [] then 0 else TotalColors(ps[..|ps| - 1]) + |ps[|ps| - 1].colors|
  }

  /** The colour count adds up over a list split in two; saving one palette adds its
      colours. */
  lemma {:induction false} TotalColorsAppend(a: seq<SavedPalette>, b: seq<SavedPalette>)
    ensures TotalColors(a + b) == TotalColors(a) + TotalColors(b)
  {
    if b != [] {
      TotalColorsAppend(a, b[..|b| - 1]);
      assert (a + b)[..|a + b| - 1] == a + b[..|b| - 1];
      assert (a + b)[|a + b| - 1] == b[|b| - 1];
    } else {
      assert a + b == a;
    }
  }

  /** The latest update time of a non-empty list of palettes. */
  function LatestUpdate(ps: seq<SavedPalette>): (t: int)
    requires ps != []
    ensures forall k :: 0 <= k < |ps| ==> ps[k].updatedAt <= t
    ensures exists k :: 0 <= k < |ps| && ps[k].updatedAt == t
  {
    if |ps| == 1 then ps[0].updatedAt
    else
      var t := LatestUpdate(ps[1..]);
      assert forall k :: 1 <= k < |ps| ==> ps[k] == ps[1..][k - 1];
      if ps[0].updatedAt >= t then ps[0].updatedAt else t
  }

  /** A padded name is never found in use when every stored name starts with a visible
      character: `savePalette` compares the untrimmed name, then stores it trimmed. */
  lemma PaddedNameNotInUse(ps: seq<SavedPalette>, name: string)
    requires name != [] && IsWhitespace(name[0])
    requires forall k :: 0 <= k < |ps| ==> ps[k].name != [] && !IsWhitespace(ps[k].name[0])
    ensures !NameInUse(ps, name)
  {
    forall k | 0 <= k < |ps| ensures Lower(ps[k].name) != Lower(name) {
      assert Lower(name)[0] == name[0];
      assert Lower(ps[k].name)[0] == LowerChar(ps[k].name[0]);
    }
  }

  /** No two saved palettes have names equal ignoring case: what the name check of
      `savePalette` and `updatePalette` is there to keep. */
  predicate DistinctNames(ps: seq<SavedPalette>) {
    forall i, j :: 0 <= i < j < |ps| ==> Lower(ps[i].name) != Lower(ps[j].name)
  }

  /** As written, `savePalette` lets a padded name through next to a stored name that equals
      its trimmed form ignoring case (a stored `foo` and the new name ` Foo`), and the list
      then holds two such names. */
  lemma PaddedNameClash(stored: SavedPalette, name: string, colors: seq<string>, id: string, now: int)
    requires stored.name != [] && !IsWhitespace(stored.name[0])
    requires name != [] && IsWhitespace(name[0]) && Lower(Trim(name)) == Lower(stored.name)
    ensures DistinctNames([stored]) && !NameInUse([stored], name)
    ensures !DistinctNames([stored] + [SavedPalette(id, Trim(name), colors, now, now)])
  {
    PaddedNameNotInUse([stored], name);
    var qs := [stored] + [SavedPalette(id, Trim(name), colors, now, now)];
    assert Lower(qs[0].name) == Lower(qs[1].name);
  }

  /** The save the name check evidently intends: the trimmed name, the one that is stored, is
      the one compared. The new list, or the error `savePalette` throws. */
  function SaveTrimmed(ps: seq<SavedPalette>, name: string, colors: seq<string>, id: string, now: int)
    : (r: Result<seq<SavedPalette>, StoreError>)
    ensures r.Success? <==> Trim(name) != [] && colors != [] && !NameInUse(ps, Trim(name))
    ensures r.Success? ==> r.value == ps + [SavedPalette(id, Trim(name), colors, now, now)]
  {
    if Trim(name) == [] then Failure(NameRequired)
    else if colors == [] then Failure(NoColors)
    else if NameInUse(ps, Trim(name)) then Failure(NameTaken)
    else Success(ps + [SavedPalette(id, Trim(name), colors, now, now)])
  }

  /** The corrected save keeps the stored names distinct ignoring case. */
  lemma SaveTrimmedKeepsNamesDistinct(ps: seq<SavedPalette>, name: string, colors: seq<string>, id: string, now: int)
    requires DistinctNames(ps)
    ensures var r := SaveTrimmed(ps, name, colors, id, now); r.Success? ==> DistinctNames(r.value)
  {
    var r := SaveTrimmed(ps, name, colors, id, now);
    if r.Success? {
      var qs := r.value;
      forall i, j | 0 <= i < j < |qs| ensures Lower(qs[i].name) != Lower(qs[j].name) {
        if j < |ps| {
          assert qs[i] == ps[i] && qs[j] == ps[j];
        } else {
          assert qs[i] == ps[i] && qs[j].name == Trim(name);
        }
      }
    }
  }

  /** The `savedPalettes` state and the operations that replace it. */
  class PaletteStore {
    var palettes: seq<SavedPalette>

    /** A store starts with no saved palettes. */
    constructor()
      ensures palettes == []
    {
      palettes := [];
    }

    /** `savePalette(name, colors)`: a blank name or an empty colour list is refused, and so is
        a name already in use ignoring case (compared untrimmed); otherwise the palette, with
        the trimmed name, goes at the end. */
    method SavePalette(name: string, colors: seq<string>, id: string, now: int)
      returns (r: Result<SavedPalette, StoreError>)
      modifies this
      ensures Trim(name) == [] ==> r == Failure(NameRequired)
      ensures Trim(name) != [] && colors == [] ==> r == Failure(NoColors)
      ensures Trim(name) != [] && colors != [] && NameInUse(old(palettes), name) ==> r == Failure(NameTaken)
      ensures r.Success? <==> Trim(name) != [] && colors != [] && !NameInUse(old(palettes), name)
      ensures r.Failure? ==> palettes == old(palettes)
      ensures r.Success? ==> && r.value == SavedPalette(id, Trim(name), colors, now, now)
                             && palettes == old(palettes) + [r.value]
    {
      if Trim(name) == [] {
        return Failure(NameRequired);
      }
      if |colors| == 0 {
        return Failure(NoColors);
      }
      if NameInUse(palettes, name) {
        return Failure(NameTaken);
      }
      var palette := SavedPalette(id, Trim(name), colors, now, now);
      palettes := palettes + [palette];
      return Success(palette);
    }

    /** `updatePalette(id, updates)`: an unknown id is refused, and so is a new name that
        another palette already uses ignoring case; otherwise only the entry at the first
        position holding `id` changes. */
    method UpdatePalette(id: string, changes: Changes, now: int) returns (r: Result<SavedPalette, StoreError>)
      modifies this
      ensures IndexOfId(old(palettes), id) == -1 ==> r == Failure(NotFound)
      ensures var k := IndexOfId(old(palettes), id);
        k >= 0 && Renames(old(palettes)[k], changes) && NameInUseElsewhere(old(palettes), id, changes.name.value)
        ==> r == Failure(NameTaken)
      ensures var k := IndexOfId(old(palettes), id);
        r.Success? <==> k >= 0 && !(Renames(old(palettes)[k], changes)
                                    && NameInUseElsewhere(old(palettes), id, changes.name.value))
      ensures r.Failure? ==> palettes == old(palettes)
      ensures r.Success? ==> var k := IndexOfId(old(palettes), id);
        && r.value == Merge(old(palettes)[k], changes, now)
        && palettes == old(palettes)[k := r.value]
    {
      var k := IndexOfId(palettes, id);
      if k == -1 {
        return Failure(NotFound);
      }
      var palette := palettes[k];
      if Renames(palette, changes) {
        if NameInUseElsewhere(palettes, id, changes.name.value) {
          return Failure(NameTaken);
        }
      }
      var updated := Merge(palette, changes, now);
      palettes := palettes[k := updated];
      return Success(updated);
    }

    /** `deletePalette(id)`: every palette with that id goes, the rest stay in order. */
    method DeletePalette(id: string)
      modifies this
      ensures palettes == Without(old(palettes), id)
    {
      palettes := Without(palettes, id);
    }

    /** `loadPalette(id)`: the first palette with that id, or `null`. */
    function LoadPalette(id: string): (r: Option<SavedPalette>)
      reads this
      ensures r.None? <==> forall k :: 0 <= k < |palettes| ==> palettes[k].id != id
      ensures r.Some? ==> exists k :: 0 <= k < |palettes| && palettes[k] == r.value && r.value.id == id
                                      && forall j :: 0 <= j < k ==> palettes[j].id != id
    {
      var k := IndexOfId(palettes, id);
      if k == -1 then None else Some(palettes[k])
    }

    /** `getStats()`: the number of palettes, the number of colours over all of them, and the
        latest update time (`null` when there is no palette). */
    function GetStats(): (s: Stats)
      reads this
      ensures s.totalPalettes == |palettes| && s.totalColors == TotalColors(palettes)
      ensures s.lastSaved.Some? <==> palettes != []
      ensures s.lastSaved.Some? ==> && (forall k :: 0 <= k < |palettes| ==> palettes[k].updatedAt <= s.lastSaved.value)
                                    && exists k :: 0 <= k < |palettes| && palettes[k].updatedAt == s.lastSaved.value
    {
      Stats(|palettes|, TotalColors(palettes), if palettes == [] then None else Some(LatestUpdate(palettes)))
    }
  }
}
