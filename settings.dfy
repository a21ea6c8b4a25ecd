/** The dashboard's settings: defaults when no settings file exists, and the
    save endpoint that merges posted keys over the stored ones. */
module Settings {
  import opened JsonValues

  /** `str(BASE_DIR / "downloads")`. */
  function DownloadsDir(baseDir: string): string
  {
    if baseDir != [] && baseDir[|baseDir| - 1] == '/' then baseDir + "downloads"
    else baseDir + "/downloads"
  }

  /** The settings used while no settings file exists. */
  function Defaults(baseDir: string): (r: seq<Field>)
    ensures Lookup(r, "target_url") == Some(JStr(""))
    ensures Lookup(r, "output_dir") == Some(JStr(DownloadsDir(baseDir)))
    ensures |r| == 2
  {
    [Field("target_url", JStr("")), Field("output_dir", JStr(DownloadsDir(baseDir)))]
  }

  /** `get_settings()`: the stored document, or the defaults when there is
      none; a malformed file raises. */
  function GetSettings(file: Document, baseDir: string): (r: Result<Json>)
    ensures file.Missing? ==> r == Ok(JObj(Defaults(baseDir)))
    ensures file.Parsed? ==> r == Ok(file.content)
    ensures file.Malformed? ==> r == Err(DecodeError)
  {
    match file
    case Missing => Ok(JObj(Defaults(baseDir)))
    case Malformed => Err(DecodeError)
    case Parsed(v) => Ok(v)
  }

  /** `current.update(posted)`: each posted key, in order, overwrites or
      extends `current`. */
  function Update(current: seq<Field>, posted: seq<Field>): seq<Field>
  {
    if posted == [] then current
    else
      var last := posted[|posted| - 1];
      Set(Update(current, posted[..|posted| - 1]), last.key, last.val)
  }

  /** After the update, a posted key has its posted value and every other key
      keeps the value it had. */
  lemma {:induction false} UpdateLookup(current: seq<Field>, posted: seq<Field>, k: string)
    ensures Lookup(Update(current, posted), k)
         == if HasKey(posted, k) then Lookup(posted, k) else Lookup(current, k)
    decreases |posted|
  {
    if posted != [] {
      var n := |posted| - 1;
      var init, last := posted[..n], posted[n];
      UpdateLookup(current, init, k);
      assert Update(current, posted) == Set(Update(current, init), last.key, last.val);
      assert posted[..n] == init;
    }
  }

  /** Keys already stored keep their positions; the update only appends. */
  lemma {:induction false} UpdateKeepsKeyOrder(current: seq<Field>, posted: seq<Field>)
    ensures |Update(current, posted)| >= |current|
    ensures forall i :: 0 <= i < |current| ==> Update(current, posted)[i].key == current[i].key
    decreases |posted|
  {
    if posted != [] {
      UpdateKeepsKeyOrder(current, posted[..|posted| - 1]);
    }
  }

  const SuccessReply: Json := JObj([Field("success", JBool(true))])

  /** The settings file as the save endpoint sees it. */
  class SettingsStore {
    var file: Document
    const baseDir: string

    constructor (file: Document, baseDir: string)
      ensures this.file == file && this.baseDir == baseDir
    {
      this.file := file;
      this.baseDir := baseDir;
    }

    function Current(): Result<Json>
      reads this
    {
      GetSettings(file, baseDir)
    }

    /** `api_save_settings`: load the current settings, merge the posted keys
        over them in place and write the result back. A malformed file, or a
        stored document that is not an object, raises and nothing is written. */
    method Save(posted: seq<Field>) returns (r: Result<Json>)
      modifies this
      ensures old(Current()).Ok? && old(Current()).value.JObj? ==>
                r == Ok(SuccessReply) && file == Parsed(JObj(Update(old(Current()).value.fields, posted)))
      ensures old(Current()).Err? ==> r == old(Current()) && file == old(file)
      ensures old(Current()).Ok? && !old(Current()).value.JObj? ==> r == Err(AttributeError) && file == old(file)
    {
      var loaded := GetSettings(file, baseDir);
      if loaded.Err? {
        return Err(loaded.error);
      }
      if !loaded.value.JObj? {
        return Err(AttributeError);
      }
      var current := loaded.value.fields;
      var i := 0;
      while i < |posted|
        invariant 0 <= i <= |posted|
        invariant current == Update(loaded.value.fields, posted[..i])
      {
        assert posted[..i + 1][..i] == posted[..i];
        current := Set(current, posted[i].key, posted[i].val);
        i := i + 1;
      }
      assert posted[..i] == posted;
      file := Parsed(JObj(current));
      r := Ok(SuccessReply);
    }
  }

  /** Saving never loses a key: every key stored before is still stored, and
      every posted key is stored with its posted value. */
  lemma SaveKeepsAndOverrides(current: seq<Field>, posted: seq<Field>, k: string)
    requires HasKey(current, k) || HasKey(posted, k)
    ensures HasKey(Update(current, posted), k)
    ensures HasKey(posted, k) ==> Lookup(Update(current, posted), k) == Lookup(posted, k)
  {
    UpdateLookup(current, posted, k);
  }
}
