/**
 * The video capture store. Unlike the photo store it keeps the caller's
 * entry objects as they are, releases any previous preview without
 * checking its scheme, encodes nothing, and its `persist` deletes `file`
 * through a shallow copy, so the live entries lose their files too.
 */
module Video {
  import opened Wrappers
  import opened Storage
  import opened MapValues
  import opened Media

  /** A recorded video, shared by reference between the caller and the store. */
  class RecordedVideo {
    var file: Option<File>
    const preview: string
    const duration: real

    constructor (file: Option<File>, preview: string, duration: real)
      ensures this.file == file && this.preview == preview && this.duration == duration
    {
      this.file := file;
      this.preview := preview;
      this.duration := duration;
    }
  }

  /** A video as written to storage. */
  datatype SavedVideo = SavedVideo(preview: string, duration: real)

  function PreviewOf(video: RecordedVideo): string {
    video.preview
  }

  /** What `persist` writes for `videos`: every id with its preview and duration. */
  function Saved(videos: map<string, RecordedVideo>): (saved: map<string, SavedVideo>)
    ensures saved.Keys == videos.Keys
    ensures forall id :: id in saved ==> saved[id] == SavedVideo(videos[id].preview, videos[id].duration)
  {
    map id | id in videos :: SavedVideo(videos[id].preview, videos[id].duration)
  }

  /** `Object.values(videos)` mapped to previews, in some order; a shared entry is visited once per id. */
  method Previews(videos: map<string, RecordedVideo>) returns (urls: seq<string>)
    ensures multiset(urls) == Bag(videos, PreviewOf)
    ensures |urls| == |videos|
  {
    urls := [];
    var rest := videos;
    while rest.Keys != {}
      invariant multiset(urls) + Bag(rest, PreviewOf) == Bag(videos, PreviewOf)
      decreases rest.Keys
    {
      var id :| id in rest;
      BagRemove(rest, PreviewOf, id);
      urls := urls + [rest[id].preview];
      rest := rest - {id};
    }
    BagSize(videos, PreviewOf);
  }

  class VideoStore {
    var videos: map<string, RecordedVideo>
    var isRecording: bool
    /** Every URL passed to `URL.revokeObjectURL`, oldest first. */
    ghost var revoked: seq<string>
    /** Every record written to the video storage key, oldest first. */
    ghost var writes: seq<map<string, SavedVideo>>

    /** No live entry holds a file. */
    ghost predicate NoFiles()
      reads this, videos.Values
    {
      forall id :: id in videos ==> videos[id].file.None?
    }

    /**
     * Rebuilds one entry object per stored id, without files. The source
     * parses the stored text without a guard, so an unparsable value
     * throws and no store is created.
     */
    constructor (slot: Slot<map<string, SavedVideo>>)
      requires !slot.Unparsable?
      ensures slot.Absent? ==> videos == map[]
      ensures slot.Holds? ==> Saved(videos) == slot.value
      ensures NoFiles() && fresh(videos.Values)
      ensures !isRecording && revoked == [] && writes == []
    {
      var loaded: map<string, RecordedVideo> := map[];
      if slot.Holds? {
        var keys := slot.value.Keys;
        while keys != {}
          invariant keys <= slot.value.Keys
          invariant loaded.Keys == slot.value.Keys - keys
          invariant forall id :: id in loaded ==> loaded[id].file.None? && fresh(loaded[id])
          invariant forall id :: id in loaded ==> SavedVideo(loaded[id].preview, loaded[id].duration) == slot.value[id]
          decreases keys
        {
          var id :| id in keys;
          var entry := new RecordedVideo(None, slot.value[id].preview, slot.value[id].duration);
          loaded := loaded[id := entry];
          keys := keys - {id};
        }
      }
      videos := loaded;
      isRecording := false;
      revoked := [];
      writes := [];
    }

    /**
     * Creates the store the way the app's first use of it does: an
     * unparsable stored value makes the unguarded `JSON.parse` throw, and
     * then there is no store.
     */
    static method Open(slot: Slot<map<string, SavedVideo>>) returns (store: Option<VideoStore>)
      ensures store.None? <==> slot.Unparsable?
      ensures store.Some? ==> fresh(store.value) && fresh(store.value.videos.Values)
      ensures store.Some? && slot.Absent? ==> store.value.videos == map[]
      ensures store.Some? && slot.Holds? ==> Saved(store.value.videos) == slot.value
      ensures store.Some? ==> store.value.NoFiles() && !store.value.isRecording
      ensures store.Some? ==> store.value.revoked == [] && store.value.writes == []
    {
      if slot.Unparsable? {
        return None;
      }
      var s := new VideoStore(slot);
      return Some(s);
    }

    /** The number of ids held. */
    function VideoCount(): (n: nat)
      reads this
      ensures n == |videos.Keys|
    {
      |videos|
    }

    function GetVideoByPosition(id: string): (video: Option<RecordedVideo>)
      reads this
      ensures video.Some? <==> id in videos
      ensures video.Some? ==> video.value == videos[id]
    {
      if id in videos then Some(videos[id]) else None
    }

    /** Releases whatever preview was at `id`, stores `video` itself and persists. */
    method SetVideo(id: string, video: RecordedVideo)
      modifies this, videos.Values, video
      ensures id in old(videos) ==> revoked == old(revoked) + [old(videos)[id].preview]
      ensures id !in old(videos) ==> revoked == old(revoked)
      ensures videos == old(videos)[id := video]
      ensures VideoCount() == old(VideoCount()) + if id in old(videos) then 0 else 1
      ensures writes == old(writes) + [Saved(videos)]
      ensures NoFiles() && video.file.None?
      ensures forall v :: v in old(videos.Values) && v !in videos.Values ==> v.file == old(v.file)
      ensures isRecording == old(isRecording)
    {
      if id in videos {
        revoked := revoked + [videos[id].preview];
      }
      videos := videos[id := video];
      Persist();
      assert videos[id] == video;
    }

    /** Releases the preview and deletes the entry; a missing id is a no-op. */
    method RemoveVideo(id: string)
      modifies this, videos.Values
      ensures id !in old(videos) ==>
        videos == old(videos) && revoked == old(revoked) && writes == old(writes) &&
        forall v :: v in videos.Values ==> v.file == old(v.file)
      ensures id in old(videos) ==>
        && videos == old(videos) - {id}
        && revoked == old(revoked) + [old(videos)[id].preview]
        && writes == old(writes) + [Saved(videos)]
        && NoFiles()
      ensures forall v :: v in old(videos.Values) && v !in videos.Values ==> v.file == old(v.file)
      ensures isRecording == old(isRecording)
    {
      if id in videos {
        revoked := revoked + [videos[id].preview];
        videos := videos - {id};
        Persist();
      }
    }

    method SetRecordingStatus(status: bool)
      modifies this`isRecording
      ensures isRecording == status
    {
      isRecording := status;
    }

    /** Releases every preview once per id, empties the record and writes the empty record. */
    method ResetVideos()
      modifies this
      ensures videos == map[]
      ensures |revoked| == |old(revoked)| + |old(videos)|
      ensures revoked[..|old(revoked)|] == old(revoked)
      ensures multiset(revoked[|old(revoked)|..]) == Bag(old(videos), PreviewOf)
      ensures writes == old(writes) + [map[]]
      ensures isRecording == old(isRecording)
    {
      var urls := Previews(videos);
      revoked := revoked + urls;
      videos := map[];
      Persist();
    }

    /**
     * Deletes `file` from every entry of a shallow copy of the record and
     * writes the copy. The copy shares its entry objects with the store,
     * so afterwards no live entry has a file either.
     */
    method Persist()
      modifies this`writes, videos.Values
      ensures NoFiles()
      ensures writes == old(writes) + [Saved(videos)]
    {
      var copy := videos;
      var keys := copy.Keys;
      while keys != {}
        invariant keys <= copy.Keys
        invariant forall id :: id in copy.Keys - keys ==> copy[id].file.None?
        invariant writes == old(writes)
        decreases keys
      {
        var id :| id in keys;
        copy[id].file := None;
        keys := keys - {id};
      }
      writes := writes + [Saved(copy)];
    }
  }
}
