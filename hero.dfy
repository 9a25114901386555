/** The Hero section's settings: the background video URL and the location
    label, restored from browser storage when the section mounts and written
    back whenever they change, and the one `blob:` URL the section tracks so
    that it can be revoked when the video is replaced or the section is torn
    down.

    React's effect scheduling is spelled out as explicit calls: `Mount` is
    the first commit followed by the commit that applies the updates the
    load effect scheduled, `SetVideoUrl` and `SetLocationName` are a state
    update and the commit that follows it, and `Unmount` is teardown. */
module Hero {
  import opened Common

  const DefaultVideoUrl: string := "./videos/my-video.mp4"
  const DefaultLocationName: string := "Kottayam, Kerala"
  const VideoKey: string := "hero.videoUrl"
  const LocationKey: string := "hero.locationName"
  const BlobPrefix: string := "blob:"

  // ---------------------------------------------------------------------
  // Browser storage

  /** The outcome of `localStorage.getItem`: the stored string or `null`,
      or an exception. */
  datatype Read = Got(item: Option<string>) | Threw

  /** `localStorage`: a string-to-string map. When storage is disabled every
      call throws and changes nothing. */
  class LocalStorage {
    var items: map<string, string>
    var enabled: bool

    constructor (items: map<string, string>, enabled: bool)
      ensures this.items == items && this.enabled == enabled
    {
      this.items := items;
      this.enabled := enabled;
    }

    method GetItem(key: string) returns (r: Read)
      ensures !enabled <==> r.Threw?
      ensures enabled ==> r == Got(Stored(items, key))
    {
      if !enabled {
        return Threw;
      }
      r := Got(Stored(items, key));
    }

    method SetItem(key: string, value: string) returns (threw: bool)
      modifies this`items
      ensures threw == !enabled
      ensures items == if enabled then old(items)[key := value] else old(items)
    {
      threw := !enabled;
      if enabled {
        items := items[key := value];
      }
    }

    method RemoveItem(key: string) returns (threw: bool)
      modifies this`items
      ensures threw == !enabled
      ensures items == if enabled then old(items) - {key} else old(items)
    {
      threw := !enabled;
      if enabled {
        items := items - {key};
      }
    }
  }

  /** `getItem`'s answer when storage works: the stored string or `null`. */
  function Stored(items: map<string, string>, key: string): (r: Option<string>)
    ensures r.Some? <==> key in items
    ensures r.Some? ==> r.value == items[key]
  {
    if key in items then Some(items[key]) else None
  }

  // ---------------------------------------------------------------------
  // What the effects write and read back

  /** `if (saved) setX(saved)`: a truthy stored value replaces `current`. */
  function Restore(saved: Option<string>, current: string): (r: string)
    ensures IsTruthy(saved) ==> r == saved.value
    ensures !IsTruthy(saved) ==> r == current
    ensures r == "" ==> current == ""
  {
    if IsTruthy(saved) then saved.value else current
  }

  /** The video URL a freshly mounted section shows for storage `items`. */
  function LoadedVideoUrl(items: map<string, string>): (r: string)
    ensures r != ""
    ensures VideoKey in items && items[VideoKey] != "" ==> r == items[VideoKey]
    ensures VideoKey !in items || items[VideoKey] == "" ==> r == DefaultVideoUrl
  {
    Restore(Stored(items, VideoKey), DefaultVideoUrl)
  }

  /** The location a freshly mounted section shows for storage `items`. */
  function LoadedLocationName(items: map<string, string>): (r: string)
    ensures r != ""
    ensures LocationKey in items && items[LocationKey] != "" ==> r == items[LocationKey]
    ensures LocationKey !in items || items[LocationKey] == "" ==> r == DefaultLocationName
  {
    Restore(Stored(items, LocationKey), DefaultLocationName)
  }

  /** Storage after the video effect: a truthy URL is written under its key,
      an empty one removes the key; no other key changes. */
  function WithVideoUrl(items: map<string, string>, url: string): (r: map<string, string>)
    ensures url != "" ==> VideoKey in r && r[VideoKey] == url
    ensures url == "" ==> VideoKey !in r
    ensures forall k :: k != VideoKey ==> (k in r <==> k in items)
    ensures forall k :: k != VideoKey && k in items ==> r[k] == items[k]
  {
    if url != "" then items[VideoKey := url] else items - {VideoKey}
  }

  /** Storage after the location effect: the label is written even when
      empty; no other key changes. */
  function WithLocationName(items: map<string, string>, name: string): (r: map<string, string>)
    ensures LocationKey in r && r[LocationKey] == name
    ensures forall k :: k != LocationKey ==> (k in r <==> k in items)
    ensures forall k :: k != LocationKey && k in items ==> r[k] == items[k]
  {
    items[LocationKey := name]
  }

  /** A non-empty video URL survives a reload; an empty one reloads as the
      default video, because its key was removed. */
  lemma VideoUrlRoundTrip(items: map<string, string>, url: string)
    ensures LoadedVideoUrl(WithVideoUrl(items, url)) == if url != "" then url else DefaultVideoUrl
    ensures LoadedLocationName(WithVideoUrl(items, url)) == LoadedLocationName(items)
  {
  }

  /** A non-empty location survives a reload; an empty one is stored but
      reloads as the default, because `""` is falsy. */
  lemma LocationNameRoundTrip(items: map<string, string>, name: string)
    ensures LoadedLocationName(WithLocationName(items, name)) == if name != "" then name else DefaultLocationName
    ensures LocationKey in WithLocationName(items, name)
    ensures LoadedVideoUrl(WithLocationName(items, name)) == LoadedVideoUrl(items)
  {
  }

  /** Empty storage gives the built-in defaults. */
  lemma ClearedStorageDefaults()
    ensures LoadedVideoUrl(map[]) == DefaultVideoUrl
    ensures LoadedLocationName(map[]) == DefaultLocationName
  {
  }

  /** Mounting leaves storage holding exactly what is shown, so a further
      reload shows the same thing. */
  lemma MountIsStable(items: map<string, string>)
    ensures var shown := items[VideoKey := LoadedVideoUrl(items)][LocationKey := LoadedLocationName(items)];
      LoadedVideoUrl(shown) == LoadedVideoUrl(items) && LoadedLocationName(shown) == LoadedLocationName(items)
  {
  }

  // ---------------------------------------------------------------------
  // The tracked blob URL

  /** `url.startsWith("blob:")`; such a URL is never empty. */
  predicate IsBlobUrl(url: string)
  {
    StartsWith(url, BlobPrefix)
  }

  /** The URL the blob effect body revokes when it runs for `url` with
      `prev` tracked: a truthy tracked blob URL that differs from `url`. */
  function EffectRevokes(prev: Option<string>, url: string): (r: Option<string>)
    ensures r.Some? <==> prev.Some? && prev.value != url && IsBlobUrl(prev.value)
    ensures r.Some? ==> r == prev
  {
    if IsTruthy(prev) && prev.value != url && IsBlobUrl(prev.value) then prev else None
  }

  /** What the blob effect body leaves tracked: `url` when it is a truthy
      blob URL, otherwise nothing if it revoked, otherwise `prev`. */
  function TrackedAfterEffect(prev: Option<string>, url: string): (r: Option<string>)
    ensures IsBlobUrl(url) ==> r == Some(url)
    ensures !IsBlobUrl(url) ==> r == None || r == prev
    ensures r.Some? && r != Some(url) ==> r == prev && !IsBlobUrl(prev.value)
  {
    if url != "" && IsBlobUrl(url) then Some(url)
    else if EffectRevokes(prev, url).Some? then None
    else prev
  }

  /** The URL the effect's cleanup revokes: a truthy tracked blob URL. */
  function CleanupRevokes(prev: Option<string>): (r: Option<string>)
    ensures r.Some? <==> prev.Some? && IsBlobUrl(prev.value)
    ensures r.Some? ==> r == prev
  {
    if IsTruthy(prev) && IsBlobUrl(prev.value) then prev else None
  }

  /** What the cleanup leaves tracked. */
  function TrackedAfterCleanup(prev: Option<string>): (r: Option<string>)
    ensures r == None || r == prev
    ensures r.Some? ==> !IsBlobUrl(r.value)
  {
    if CleanupRevokes(prev).Some? then None else prev
  }

  /** The default video is a relative path, not a blob URL. */
  lemma DefaultIsNotBlob()
    ensures !IsBlobUrl(DefaultVideoUrl)
  {
    assert DefaultVideoUrl[..|BlobPrefix|][0] != BlobPrefix[0];
  }

  /** Only blob URLs are ever tracked. */
  ghost predicate TracksBlob(prev: Option<string>)
  {
    prev.Some? ==> IsBlobUrl(prev.value)
  }

  /** The effect keeps only blob URLs tracked, and it tracks the new URL
      exactly when that URL is a blob URL; whatever it revokes is a tracked
      blob URL other than the new one. */
  lemma EffectStep(prev: Option<string>, url: string)
    requires TracksBlob(prev)
    ensures TracksBlob(TrackedAfterEffect(prev, url))
    ensures IsBlobUrl(url) ==> TrackedAfterEffect(prev, url) == Some(url)
    ensures EffectRevokes(prev, url).Some? ==> EffectRevokes(prev, url) == prev && prev.value != url
    ensures !IsBlobUrl(url) && prev != Some(url) ==> TrackedAfterEffect(prev, url) == None
  {
  }

  /** The cleanup revokes exactly the tracked URL and leaves nothing
      tracked, so the effect that runs after it has nothing to revoke. */
  lemma CleanupStep(prev: Option<string>, url: string)
    requires TracksBlob(prev)
    ensures CleanupRevokes(prev) == prev
    ensures TrackedAfterCleanup(prev) == None
    ensures EffectRevokes(TrackedAfterCleanup(prev), url) == None
  {
  }

  /** The blob URLs among `urls`, in order. */
  function BlobUrls(urls: seq<string>): seq<string>
  {
    if urls == [] then []
    else (if IsBlobUrl(urls[0]) then [urls[0]] else []) + BlobUrls(urls[1..])
  }

  /** The revocations of a whole lifetime: starting with `prev` tracked,
      each value of `urls` is committed in turn (the previous effect's
      cleanup, then the effect for the new value) and the section is then
      torn down (a last cleanup). `urls` lists the values the video URL
      takes; in the section each differs from the one before, since the
      effect only re-runs on a change, but nothing here relies on that. */
  function Revocations(prev: Option<string>, urls: seq<string>): (r: seq<string>)
    ensures forall u :: u in r ==> IsBlobUrl(u)
    decreases |urls|
  {
    if urls == [] then ToSeq(CleanupRevokes(prev))
    else
      var afterCleanup := TrackedAfterCleanup(prev);
      ToSeq(CleanupRevokes(prev)) + ToSeq(EffectRevokes(afterCleanup, urls[0]))
        + Revocations(TrackedAfterEffect(afterCleanup, urls[0]), urls[1..])
  }

  /** Over a lifetime, each time a blob URL stops being shown it is revoked
      once, in the order shown, and nothing else is revoked. The lemma holds
      for any history, repeated neighbours included. */
  lemma {:induction false} EachBlobRevokedOnce(prev: Option<string>, urls: seq<string>)
    requires TracksBlob(prev)
    ensures Revocations(prev, urls) == ToSeq(prev) + BlobUrls(urls)
    decreases |urls|
  {
    if urls == [] {
      CleanupStep(prev, "");
    } else {
      var next := RevocationsStep(prev, urls);
      EachBlobRevokedOnce(next, urls[1..]);
    }
  }

  /** One commit of a lifetime: the cleanup revokes the tracked URL, the
      effect then revokes nothing and tracks the new URL if it is a blob. */
  lemma RevocationsStep(prev: Option<string>, urls: seq<string>) returns (next: Option<string>)
    requires TracksBlob(prev) && urls != []
    ensures TracksBlob(next) && ToSeq(next) + BlobUrls(urls[1..]) == BlobUrls(urls)
    ensures Revocations(prev, urls) == ToSeq(prev) + Revocations(next, urls[1..])
  {
    CleanupStep(prev, urls[0]);
    next := TrackedAfterEffect(None, urls[0]);
    assert ToSeq(next) == if IsBlobUrl(urls[0]) then [urls[0]] else [];
  }

  // ---------------------------------------------------------------------
  // The component

  class HeroSection {
    var videoUrl: string
    var locationName: string
    var prevBlob: Option<string>
    /** Every URL handed to `URL.revokeObjectURL`, in order. */
    ghost var revoked: seq<string>

    /** The tracked URL, if any, is a blob URL and is the one shown. */
    ghost predicate Valid()
      reads this
    {
      TracksBlob(prevBlob) && (prevBlob.Some? ==> prevBlob.value == videoUrl)
    }

    /** The first render: the built-in defaults, nothing tracked. */
    constructor ()
      ensures Valid()
      ensures videoUrl == DefaultVideoUrl && locationName == DefaultLocationName
      ensures prevBlob == None && revoked == []
    {
      videoUrl := DefaultVideoUrl;
      locationName := DefaultLocationName;
      prevBlob := None;
      revoked := [];
    }

    /** The mount-time load effect: reads both keys and returns the state
        updates it schedules (`None`: no update). Only truthy stored values
        are used; a storage exception schedules nothing. */
    method LoadEffect(storage: LocalStorage) returns (video: Option<string>, location: Option<string>)
      ensures !storage.enabled ==> video == None && location == None
      ensures storage.enabled ==>
        (video.Some? <==> IsTruthy(Stored(storage.items, VideoKey))) &&
        (location.Some? <==> IsTruthy(Stored(storage.items, LocationKey)))
      ensures video.Some? ==> video.value == LoadedVideoUrl(storage.items) && video.value != ""
      ensures location.Some? ==> location.value == LoadedLocationName(storage.items) && location.value != ""
    {
      var savedVideo := storage.GetItem(VideoKey);
      if savedVideo.Threw? {
        return None, None;
      }
      var savedLocation := storage.GetItem(LocationKey);
      if savedLocation.Threw? {
        return None, None;
      }
      video := if IsTruthy(savedVideo.item) then savedVideo.item else None;
      location := if IsTruthy(savedLocation.item) then savedLocation.item else None;
    }

    /** The video persist effect for the committed `videoUrl`; an exception
        is swallowed. */
    method PersistVideoEffect(storage: LocalStorage)
      modifies storage`items
      ensures storage.items == if storage.enabled then WithVideoUrl(old(storage.items), videoUrl) else old(storage.items)
    {
      var threw;
      if videoUrl != "" {
        threw := storage.SetItem(VideoKey, videoUrl);
      } else {
        threw := storage.RemoveItem(VideoKey);
      }
    }

    /** The location persist effect for the committed `locationName`,
        written even when empty; an exception is swallowed. */
    method PersistLocationEffect(storage: LocalStorage)
      modifies storage`items
      ensures storage.items == if storage.enabled then WithLocationName(old(storage.items), locationName) else old(storage.items)
    {
      var threw := storage.SetItem(LocationKey, locationName);
    }

    /** The body of the blob effect for the committed `videoUrl`. */
    method BlobEffect()
      modifies this`prevBlob, this`revoked
      ensures prevBlob == TrackedAfterEffect(old(prevBlob), videoUrl)
      ensures revoked == old(revoked) + ToSeq(EffectRevokes(old(prevBlob), videoUrl))
    {
      if prevBlob.Some? && prevBlob.value != "" && prevBlob.value != videoUrl && IsBlobUrl(prevBlob.value) {
        revoked := revoked + [prevBlob.value];
        prevBlob := None;
      }
      if videoUrl != "" && IsBlobUrl(videoUrl) {
        prevBlob := Some(videoUrl);
      }
    }

    /** The cleanup the blob effect returns, run before the effect runs
        again and at teardown. */
    method BlobCleanup()
      modifies this`prevBlob, this`revoked
      ensures prevBlob == TrackedAfterCleanup(old(prevBlob))
      ensures revoked == old(revoked) + ToSeq(CleanupRevokes(old(prevBlob)))
    {
      if prevBlob.Some? && prevBlob.value != "" && IsBlobUrl(prevBlob.value) {
        revoked := revoked + [prevBlob.value];
        prevBlob := None;
      }
    }

    /** `setVideoUrl(url)` and the commit that follows: nothing happens for
        the current value; otherwise the tracked blob URL is revoked, the new
        URL is persisted, and it is tracked if it is a blob URL. */
    method SetVideoUrl(storage: LocalStorage, url: string)
      requires Valid()
      modifies this`videoUrl, this`prevBlob, this`revoked, storage`items
      ensures Valid()
      ensures videoUrl == url
      ensures url == old(videoUrl) ==>
        storage.items == old(storage.items) && prevBlob == old(prevBlob) && revoked == old(revoked)
      ensures url != old(videoUrl) ==>
        storage.items == (if storage.enabled then WithVideoUrl(old(storage.items), url) else old(storage.items)) &&
        revoked == old(revoked) + ToSeq(old(prevBlob)) &&
        prevBlob == (if IsBlobUrl(url) then Some(url) else None)
    {
      if url != videoUrl {
        CleanupStep(prevBlob, url);
        BlobCleanup();
        videoUrl := url;
        PersistVideoEffect(storage);
        BlobEffect();
      }
    }

    /** `setLocationName(name)` and the commit that follows. */
    method SetLocationName(storage: LocalStorage, name: string)
      modifies this`locationName, storage`items
      ensures locationName == name
      ensures storage.items ==
        if name != old(locationName) && storage.enabled then WithLocationName(old(storage.items), name)
        else old(storage.items)
    {
      if name != locationName {
        locationName := name;
        PersistLocationEffect(storage);
      }
    }

    /** The first commit after mounting: the load effect reads storage,
        then the persist effects write the first render's defaults and the
        blob effect runs for the default URL. Returns the updates the load
        effect scheduled for the next render. */
    method FirstCommit(storage: LocalStorage) returns (video: Option<string>, location: Option<string>)
      requires videoUrl == DefaultVideoUrl && locationName == DefaultLocationName && prevBlob == None
      modifies this`prevBlob, this`revoked, storage`items
      ensures Valid() && prevBlob == None && revoked == old(revoked)
      ensures storage.items ==
        if storage.enabled then old(storage.items)[VideoKey := DefaultVideoUrl][LocationKey := DefaultLocationName]
        else old(storage.items)
      ensures !storage.enabled ==> video == None && location == None
      ensures storage.enabled ==> Restore(video, DefaultVideoUrl) == LoadedVideoUrl(old(storage.items))
      ensures storage.enabled ==> Restore(location, DefaultLocationName) == LoadedLocationName(old(storage.items))
      ensures video.Some? ==> video.value != ""
      ensures location.Some? ==> location.value != ""
    {
      video, location := LoadEffect(storage);
      PersistVideoEffect(storage);
      PersistLocationEffect(storage);
      DefaultIsNotBlob();
      BlobEffect();
    }

    /** Mounting: the first commit, then the commit that applies the updates
        the load effect scheduled. Afterwards the section shows what storage
        held (or the defaults), storage holds what is shown, a stored blob
        URL is tracked, and nothing is revoked. */
    method Mount(storage: LocalStorage)
      requires videoUrl == DefaultVideoUrl && locationName == DefaultLocationName && prevBlob == None
      modifies this`videoUrl, this`locationName, this`prevBlob, this`revoked, storage`items
      ensures Valid()
      ensures storage.enabled ==>
        videoUrl == LoadedVideoUrl(old(storage.items)) && locationName == LoadedLocationName(old(storage.items))
      ensures !storage.enabled ==> videoUrl == DefaultVideoUrl && locationName == DefaultLocationName
      ensures storage.items ==
        if storage.enabled then old(storage.items)[VideoKey := videoUrl][LocationKey := locationName]
        else old(storage.items)
      ensures prevBlob == (if IsBlobUrl(videoUrl) then Some(videoUrl) else None)
      ensures revoked == old(revoked)
    {
      ghost var items0 := storage.items;
      assert VideoKey != LocationKey by {
        assert VideoKey[5] != LocationKey[5];
      }
      DefaultIsNotBlob();
      var video, location := FirstCommit(storage);
      if video.Some? {
        SetVideoUrl(storage, video.value);
      }
      assert storage.enabled ==> storage.items == items0[VideoKey := videoUrl][LocationKey := DefaultLocationName];
      if location.Some? {
        SetLocationName(storage, location.value);
      }
    }

    /** Teardown: the last cleanup revokes the tracked blob URL. */
    method Unmount()
      requires Valid()
      modifies this`prevBlob, this`revoked
      ensures prevBlob == None
      ensures revoked == old(revoked) + ToSeq(old(prevBlob))
    {
      CleanupStep(prevBlob, videoUrl);
      BlobCleanup();
    }
  }

  /** Setting the location to "Berlin, Germany" and reloading shows
      "Berlin, Germany" again. */
  method BerlinSurvivesReload(items: map<string, string>) returns (shown: string)
    ensures shown == "Berlin, Germany"
  {
    var storage := new LocalStorage(items, true);
    var hero := new HeroSection();
    hero.Mount(storage);
    hero.SetLocationName(storage, "Berlin, Germany");
    var reloaded := new HeroSection();
    reloaded.Mount(storage);
    shown := reloaded.locationName;
  }

  /** With storage cleared, a reload shows the default location. */
  method ClearedStorageShowsDefault() returns (shown: string)
    ensures shown == DefaultLocationName
  {
    var storage := new LocalStorage(map[], true);
    var hero := new HeroSection();
    hero.Mount(storage);
    shown := hero.locationName;
  }
}
