/**
 * The photo capture store: at most one photo per position, each preview
 * turned into a self-contained data URL before it is stored, every
 * superseded `blob:` preview released, and the whole record written
 * through to storage without the in-memory files.
 */
module Photo {
  import opened Wrappers
  import opened Storage
  import opened MapValues
  import opened Media

  datatype CapturedPhoto = CapturedPhoto(file: Option<File>, preview: string)

  /** A photo as written to storage: the file is stripped, the preview kept. */
  datatype SavedPhoto = SavedPhoto(preview: string)

  /** `FileReader` reported an error while reading the file. */
  datatype EncodeError = ReadFailed

  const PHOTO_POSITIONS: seq<string> :=
    ["Front", "Rear", "Left", "Right", "Front Left", "Front Right", "Rear Left", "Rear Right"]

  function TotalRequired(): (n: nat)
    ensures n == 8
  {
    |PHOTO_POSITIONS|
  }

  /** `url.startsWith('blob:')`: an object URL that must be released. */
  predicate IsBlobUrl(url: string) {
    |url| >= 5 && url[..5] == "blob:"
  }

  function PreviewOf(photo: CapturedPhoto): string {
    photo.preview
  }

  /** What `persist` writes for `photos`: the same positions and previews, and no file. */
  function Saved(photos: map<string, CapturedPhoto>): (saved: map<string, SavedPhoto>)
    ensures saved.Keys == photos.Keys
    ensures forall p :: p in saved ==> saved[p].preview == photos[p].preview
  {
    map p | p in photos :: SavedPhoto(photos[p].preview)
  }

  /** The initial photos: what storage holds, with no files; nothing on a missing or unparsable value. */
  function Load(slot: Slot<map<string, SavedPhoto>>): (photos: map<string, CapturedPhoto>)
    ensures !slot.Holds? ==> photos == map[]
    ensures slot.Holds? ==> photos.Keys == slot.value.Keys
    ensures slot.Holds? ==> forall p :: p in photos ==> photos[p] == CapturedPhoto(None, slot.value[p].preview)
  {
    if slot.Holds? then map p | p in slot.value :: CapturedPhoto(None, slot.value[p].preview) else map[]
  }

  /** Reloading what was saved gives back every position and preview, without the files. */
  lemma SaveThenLoad(photos: map<string, CapturedPhoto>)
    ensures var back := Load(Holds(Saved(photos)));
      back.Keys == photos.Keys &&
      forall p :: p in back ==> back[p] == photos[p].(file := None)
  {
  }

  /** Saving what was loaded writes back exactly what storage held. */
  lemma LoadThenSave(saved: map<string, SavedPhoto>)
    ensures Saved(Load(Holds(saved))) == saved
  {
  }

  /** The copy-then-delete-`file` loop of `persist`. */
  method StripFiles(photos: map<string, CapturedPhoto>) returns (saved: map<string, SavedPhoto>)
    ensures saved == Saved(photos)
  {
    saved := map[];
    var keys := photos.Keys;
    while keys != {}
      invariant keys <= photos.Keys
      invariant saved.Keys == photos.Keys - keys
      invariant forall p :: p in saved ==> saved[p] == SavedPhoto(photos[p].preview)
      decreases keys
    {
      var p :| p in keys;
      saved := saved[p := SavedPhoto(photos[p].preview)];
      keys := keys - {p};
    }
  }

  /** `Object.values(photos)` mapped to previews, in some order: one URL per position. */
  method Previews(photos: map<string, CapturedPhoto>) returns (urls: seq<string>)
    ensures multiset(urls) == Bag(photos, PreviewOf)
    ensures |urls| == |photos|
  {
    urls := [];
    var rest := photos;
    while rest.Keys != {}
      invariant multiset(urls) + Bag(rest, PreviewOf) == Bag(photos, PreviewOf)
      decreases rest.Keys
    {
      var p :| p in rest;
      BagRemove(rest, PreviewOf, p);
      urls := urls + [rest[p].preview];
      rest := rest - {p};
    }
    BagSize(photos, PreviewOf);
  }

  class PhotoStore {
    var photos: map<string, CapturedPhoto>
    /** Every URL passed to `URL.revokeObjectURL`, oldest first. */
    ghost var revoked: seq<string>
    /** Every record written to the photo storage key, oldest first. */
    ghost var writes: seq<map<string, SavedPhoto>>

    /** A malformed stored value is recovered from by starting empty. */
    constructor (slot: Slot<map<string, SavedPhoto>>)
      ensures photos == Load(slot)
      ensures revoked == [] && writes == []
    {
      photos := Load(slot);
      revoked := [];
      writes := [];
    }

    /** The number of positions held. */
    function CapturedCount(): (n: nat)
      reads this
      ensures n == |photos.Keys|
    {
      |photos|
    }

    function IsComplete(): (complete: bool)
      reads this
      ensures complete <==> CapturedCount() == 8
    {
      |photos| == |PHOTO_POSITIONS|
    }

    function GetPhotoByPosition(position: string): (photo: Option<CapturedPhoto>)
      reads this
      ensures photo.Some? <==> position in photos
      ensures photo.Some? ==> photo.value == photos[position]
    {
      if position in photos then Some(photos[position]) else None
    }

    /**
     * Releases the old preview at `position` if it is a `blob:` URL, then
     * encodes the new file, if any, to a data URL and stores the photo with
     * that preview. The release comes first: a failed encoding has already
     * released the old preview and leaves the entry otherwise as it was.
     */
    method SetPhoto(position: string, photo: CapturedPhoto, encode: File -> Option<string>)
      returns (result: Outcome<EncodeError>)
      modifies this
      ensures position in old(photos) && IsBlobUrl(old(photos)[position].preview) ==>
        revoked == old(revoked) + [old(photos)[position].preview]
      ensures !(position in old(photos) && IsBlobUrl(old(photos)[position].preview)) ==>
        revoked == old(revoked)
      ensures result.Fail? <==> photo.file.Some? && encode(photo.file.value).None?
      ensures result.Fail? ==> photos == old(photos) && writes == old(writes)
      ensures result.Pass? ==>
        var preview := if photo.file.Some? then encode(photo.file.value).value else photo.preview;
        photos == old(photos)[position := CapturedPhoto(photo.file, preview)]
      ensures result.Pass? ==> writes == old(writes) + [Saved(photos)]
      ensures result.Pass? ==> CapturedCount() == old(CapturedCount()) + if position in old(photos) then 0 else 1
    {
      if position in photos && IsBlobUrl(photos[position].preview) {
        revoked := revoked + [photos[position].preview];
      }
      var persistentPreview := photo.preview;
      if photo.file.Some? {
        var encoded := encode(photo.file.value);
        if encoded.None? {
          return Fail(ReadFailed);
        }
        persistentPreview := encoded.value;
      }
      photos := photos[position := CapturedPhoto(photo.file, persistentPreview)];
      Persist();
      result := Pass;
    }

    /** Releases the preview and deletes the entry; a missing position is a no-op. */
    method RemovePhoto(position: string)
      modifies this
      ensures position !in old(photos) ==>
        photos == old(photos) && revoked == old(revoked) && writes == old(writes)
      ensures position in old(photos) ==>
        && photos == old(photos) - {position}
        && revoked == old(revoked) + [old(photos)[position].preview]
        && writes == old(writes) + [Saved(photos)]
        && CapturedCount() == old(CapturedCount()) - 1
    {
      if position in photos {
        revoked := revoked + [photos[position].preview];
        photos := photos - {position};
        Persist();
      }
    }

    /** Releases every preview once, empties the record and writes the empty record. */
    method ResetPhotos()
      modifies this
      ensures photos == map[]
      ensures |revoked| == |old(revoked)| + |old(photos)|
      ensures revoked[..|old(revoked)|] == old(revoked)
      ensures multiset(revoked[|old(revoked)|..]) == Bag(old(photos), PreviewOf)
      ensures writes == old(writes) + [map[]]
    {
      var urls := Previews(photos);
      revoked := revoked + urls;
      photos := map[];
      Persist();
    }

    /** Writes the record without files; the in-memory photos keep theirs. */
    method Persist()
      modifies this`writes
      ensures writes == old(writes) + [Saved(photos)]
    {
      var saved := StripFiles(photos);
      writes := writes + [saved];
    }
  }

  /** The eight positions are distinct. */
  lemma PositionsDistinct()
    ensures forall i, j :: 0 <= i < j < |PHOTO_POSITIONS| ==> PHOTO_POSITIONS[i] != PHOTO_POSITIONS[j]
  {
  }

  /** A duplicate-free sequence has as many distinct elements as entries. */
  lemma {:induction false} DistinctElements(s: seq<string>)
    requires forall i, j :: 0 <= i < j < |s| ==> s[i] != s[j]
    ensures |set x | x in s| == |s|
  {
    if s != [] {
      var tail := s[1..];
      DistinctElements(tail);
      assert (set x | x in s) == (set x | x in tail) + {s[0]};
      assert s[0] !in tail;
    }
  }

  /** With a photo at each of the eight positions, the capture is complete. */
  lemma AllPositionsComplete(store: PhotoStore)
    requires store.photos.Keys == set p | p in PHOTO_POSITIONS
    ensures store.IsComplete()
  {
    PositionsDistinct();
    DistinctElements(PHOTO_POSITIONS);
  }
}
