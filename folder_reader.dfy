/** The sample-folder scanner of src/FolderReader.hpp: it filters a directory
    listing down to WAV files, keeps their paths and short display names,
    and loads one clip per path. The listing, the base-name helper and the
    WAV decoder are inputs. */
module FolderReaders {
  import opened Common
  import opened AudioClips

  /** Display names are cut to this many characters. */
  const DisplayCharacters: int := 13
  /** std::size_t is 64 bits wide. */
  const SizeRange: nat := 0x1_0000_0000_0000_0000

  predicate IsDotEntry(name: string)
  {
    name == "." || name == ".."
  }

  /** pattern occurs in s starting at position j. */
  predicate OccursAt(s: string, pattern: string, j: nat)
  {
    j + |pattern| <= |s| && s[j..j + |pattern|] == pattern
  }

  /** std::string::find(pattern, pos): the leftmost occurrence at or after pos,
      None standing for npos. */
  function Find(s: string, pattern: string, pos: nat): (r: Option<nat>)
    ensures r.Some? ==> pos <= r.value && OccursAt(s, pattern, r.value)
    ensures r.Some? ==> forall j :: pos <= j < r.value ==> !OccursAt(s, pattern, j)
    ensures r.None? ==> forall j :: pos <= j ==> !OccursAt(s, pattern, j)
    decreases |s| - pos
  {
    if pos + |pattern| > |s| then None
    else if s[pos..pos + |pattern|] == pattern then Some(pos)
    else Find(s, pattern, pos + 1)
  }

  /** The search start length - 5, computed in size_t: below five characters
      it wraps to a position past the end. */
  function SearchStart(length: nat): (p: nat)
    ensures length < 5 ==> p > length
    ensures length >= 5 ==> p + 5 == length
  {
    if length >= 5 then length - 5 else SizeRange + length - 5
  }

  /** The scanner's test for one directory entry: never "." or "..", nor a
      name shorter than five characters. */
  predicate Listed(name: string)
    ensures Listed(name) ==> !IsDotEntry(name) && |name| >= 5
  {
    !IsDotEntry(name)
    && (Find(name, ".wav", SearchStart(|name|)).Some? || Find(name, ".WAV", SearchStart(|name|)).Some?)
  }

  /** ext ends the name, or is followed by exactly one more character. */
  predicate NearEnd(name: string, ext: string)
    requires |ext| == 4
  {
    |name| >= 5 && (name[|name| - 5..|name| - 1] == ext || name[|name| - 4..] == ext)
  }

  /** An entry is listed exactly when ".wav" or ".WAV" starts at or after
      position length - 5: names shorter than five characters, "." and ".."
      never are. */
  lemma ListedIff(name: string)
    ensures Listed(name) <==> NearEnd(name, ".wav") || NearEnd(name, ".WAV")
    ensures |name| < 5 || IsDotEntry(name) ==> !Listed(name)
  {
    if |name| >= 5 {
      FoundNearEnd(name, ".wav");
      FoundNearEnd(name, ".WAV");
    }
  }

  lemma FoundNearEnd(name: string, ext: string)
    requires |name| >= 5 && |ext| == 4
    ensures Find(name, ext, |name| - 5).Some? <==> NearEnd(name, ext)
  {
    var n := |name|;
    assert name[n - 4..] == name[n - 4..n - 4 + 4];
    assert Find(name, ext, n - 3) == None;
  }

  /** The test is looser than a suffix check: one character may follow. */
  lemma ListedWithTrailingCharacter()
    ensures Listed("a.wavx") && Listed("b.WAV") && !Listed(".wav") && !Listed("a.wa")
  {
    ListedIff("a.wavx");
    assert NearEnd("a.wavx", ".wav") by {
      assert "a.wavx"[1..5] == ".wav";
    }
    ListedIff("b.WAV");
    assert NearEnd("b.WAV", ".WAV") by {
      assert "b.WAV"[1..] == ".WAV";
    }
    ListedIff(".wav");
    ListedIff("a.wa");
  }

  /** The display form of a name: at most maxCharacters leading characters.
      A negative limit turns into a huge size_t length and keeps the name. */
  function ShortFileName(filename: string, maxCharacters: int): (r: string)
    ensures maxCharacters >= 0 ==> |r| == (if |filename| <= maxCharacters then |filename| else maxCharacters)
    ensures maxCharacters < 0 ==> r == filename
    ensures r <= filename
  {
    if |filename| <= maxCharacters then filename
    else
      var overSize := |filename| - maxCharacters;
      if maxCharacters < 0 then filename else filename[..|filename| - overSize]
  }

  /** The path kept for a listed entry. */
  function PathOf(directory: string, name: string): string
  {
    directory + "/" + name
  }

  /** Paths of the listed entries, in listing order. */
  function FilePaths(directory: string, names: seq<string>): seq<string>
  {
    if |names| == 0 then []
    else
      var last := names[|names| - 1];
      FilePaths(directory, names[..|names| - 1]) + (if Listed(last) then [PathOf(directory, last)] else [])
  }

  /** Display names of the listed entries, in listing order. */
  function DisplayNames(directory: string, names: seq<string>, baseName: string -> string): seq<string>
  {
    if |names| == 0 then []
    else
      var last := names[|names| - 1];
      DisplayNames(directory, names[..|names| - 1], baseName)
      + (if Listed(last) then [ShortFileName(baseName(PathOf(directory, last)), DisplayCharacters)] else [])
  }

  /** Entries other than "." and "..". */
  function EntryCount(names: seq<string>): nat
  {
    if |names| == 0 then 0
    else EntryCount(names[..|names| - 1]) + (if IsDotEntry(names[|names| - 1]) then 0 else 1)
  }

  /** The two lists stay aligned, every kept path comes from a listed entry of
      the directory, and there are no more of them than counted entries. */
  lemma {:induction false} FilePathsFromListing(directory: string, names: seq<string>, baseName: string -> string)
    ensures |FilePaths(directory, names)| == |DisplayNames(directory, names, baseName)|
    ensures |FilePaths(directory, names)| <= EntryCount(names) <= |names|
    ensures forall p :: p in FilePaths(directory, names) ==>
      exists k :: 0 <= k < |names| && Listed(names[k]) && p == PathOf(directory, names[k])
  {
    if |names| > 0 {
      var init := names[..|names| - 1];
      FilePathsFromListing(directory, init, baseName);
      forall p | p in FilePaths(directory, names)
        ensures exists k :: 0 <= k < |names| && Listed(names[k]) && p == PathOf(directory, names[k])
      {
        if p in FilePaths(directory, init) {
          var k :| 0 <= k < |init| && Listed(init[k]) && p == PathOf(directory, init[k]);
          assert names[k] == init[k];
        } else {
          assert Listed(names[|names| - 1]) && p == PathOf(directory, names[|names| - 1]);
        }
      }
    }
  }

  /** Every listed entry contributes its path. */
  lemma {:induction false} ListedEntryKept(directory: string, names: seq<string>, k: nat)
    requires k < |names| && Listed(names[k])
    ensures PathOf(directory, names[k]) in FilePaths(directory, names)
  {
    if k < |names| - 1 {
      ListedEntryKept(directory, names[..|names| - 1], k);
    }
  }

  /** The decoder reports at least one channel for every file it reads. */
  ghost predicate DecoderSound(decode: string -> DecodeResult)
  {
    forall path :: decode(path).Decoded? ==> decode(path).channels > 0
  }

  /** Entry count of a listing, None standing for a directory that could not
      be opened. */
  method GetFileCountInDirectory(listing: Option<seq<string>>) returns (counter: int)
    ensures listing.None? ==> counter == 0
    ensures listing.Some? ==> counter == EntryCount(listing.value)
  {
    counter := 0;
    if listing.Some? {
      var names := listing.value;
      for k := 0 to |names|
        invariant counter == EntryCount(names[..k])
      {
        assert names[..k + 1][..k] == names[..k];
        if !IsDotEntry(names[k]) {
          counter := counter + 1;
        }
      }
      assert names[..|names|] == names;
    }
  }

  class FolderReader {
    var audioClips: seq<AudioClip>
    var fileNames: seq<string>
    var displayNames: seq<string>
    var maxFileIndex: int

    /** The three lists are aligned, the index bound follows the list and
        every clip is well formed. */
    ghost predicate Valid()
      reads this, audioClips
    {
      |audioClips| == |fileNames| == |displayNames|
      && maxFileIndex == |fileNames| - 1
      && forall i :: 0 <= i < |audioClips| ==> audioClips[i].Valid()
    }

    constructor ()
      ensures Valid()
      ensures |audioClips| == 1 && fresh(audioClips[0]) && !audioClips[0].IsLoaded()
      ensures audioClips[0].leftChannel == [] && audioClips[0].State() == Blank()
      ensures displayNames == ["No sample"] && fileNames == [""] && maxFileIndex == 0
    {
      var empty := new AudioClip();
      audioClips := [empty];
      displayNames := ["No sample"];
      fileNames := [""];
      maxFileIndex := 0;
    }

    /** Rebuilds all lists from a listing of directory (None when it cannot be
        opened), then loads one fresh clip per kept path. */
    method ScanDirectory(directory: string, listing: Option<seq<string>>, baseName: string -> string,
                         decode: string -> DecodeResult)
      requires DecoderSound(decode)
      modifies this
      ensures Valid()
      ensures listing.None? ==> fileNames == [] && displayNames == [] && audioClips == [] && maxFileIndex == -1
      ensures listing.Some? ==>
        fileNames == FilePaths(directory, listing.value)
        && displayNames == DisplayNames(directory, listing.value, baseName)
      ensures forall i :: 0 <= i < |audioClips| ==>
        fresh(audioClips[i]) && fresh(audioClips[i].waveform)
        && audioClips[i].State() == AfterLoad(Blank(), decode(fileNames[i]))
    {
      audioClips := [];
      fileNames := [];
      displayNames := [];
      if listing.Some? {
        ListEntries(directory, listing.value, baseName);
      }
      maxFileIndex := |fileNames| - 1;
      LoadDirectoryClips(decode);
      forall i | 0 <= i < |audioClips|
        ensures audioClips[i].Valid() && audioClips[i].State() == AfterLoad(Blank(), decode(fileNames[i]))
      {
        assert audioClips[i].State() == AfterLoad(Blank(), decode(fileNames[i - 0]));
      }
    }

    /** The listing loop: keeps the path and the display name of every
        listed entry. */
    method ListEntries(directory: string, names: seq<string>, baseName: string -> string)
      modifies this
      ensures audioClips == old(audioClips)
      ensures fileNames == old(fileNames) + FilePaths(directory, names)
      ensures displayNames == old(displayNames) + DisplayNames(directory, names, baseName)
      ensures |FilePaths(directory, names)| == |DisplayNames(directory, names, baseName)|
    {
      ghost var clips0 := audioClips;
      ghost var files0 := fileNames;
      ghost var shown0 := displayNames;
      for k := 0 to |names|
        invariant audioClips == clips0
        invariant fileNames == files0 + FilePaths(directory, names[..k])
        invariant displayNames == shown0 + DisplayNames(directory, names[..k], baseName)
      {
        assert names[..k + 1][..k] == names[..k];
        var name := names[k];
        if !IsDotEntry(name) {
          var found := Find(name, ".wav", SearchStart(|name|));
          if found.None? {
            found := Find(name, ".WAV", SearchStart(|name|));
          }
          if found.Some? {
            var path := PathOf(directory, name);
            fileNames := fileNames + [path];
            displayNames := displayNames + [ShortFileName(baseName(path), DisplayCharacters)];
          }
        }
      }
      assert names[..|names|] == names;
      FilePathsFromListing(directory, names, baseName);
    }

    /** Appends one freshly loaded clip per kept path. */
    method LoadDirectoryClips(decode: string -> DecodeResult)
      requires DecoderSound(decode)
      modifies this
      ensures fileNames == old(fileNames) && displayNames == old(displayNames) && maxFileIndex == old(maxFileIndex)
      ensures |audioClips| == |old(audioClips)| + |fileNames|
      ensures audioClips[..|old(audioClips)|] == old(audioClips)
      ensures forall j :: |old(audioClips)| <= j < |audioClips| ==>
        fresh(audioClips[j]) && fresh(audioClips[j].waveform) && audioClips[j].Valid()
        && audioClips[j].State() == AfterLoad(Blank(), decode(fileNames[j - |old(audioClips)|]))
    {
      var paths := fileNames;
      var clips: seq<AudioClip> := [];
      for i := 0 to |paths|
        invariant unchanged(this)
        invariant |clips| == i
        invariant forall j :: 0 <= j < i ==>
          fresh(clips[j]) && fresh(clips[j].waveform) && clips[j].Valid()
          && clips[j].State() == AfterLoad(Blank(), decode(paths[j]))
      {
        var clip := new AudioClip();
        clip.Load(decode(paths[i]));
        clips := clips + [clip];
      }
      audioClips := audioClips + clips;
    }
  }
}
