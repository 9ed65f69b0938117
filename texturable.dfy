/** The `Texturable` loading policy of both engines: which file name is
    looked up, when loading falls back to the asset catalog, which loader
    options are passed, and how a texture array is assembled slice by slice.

    What the file system lists and what the texture loader makes of an image
    are foreign; they are the `Bundle` and `Loader` values passed in. */
module Texturable {
  import opened Wrappers
  import opened Gpu
  import Seqs

  /** A resource bundle: its name, the path of its directory, the relative
      paths its directory enumerator lists (in enumeration order), and the
      answer of `Bundle.url(forResource:withExtension:)`. */
  datatype Bundle = Bundle(
    name: string,
    path: string,
    files: seq<string>,
    urlForResource: (string, Option<string>) -> Option<string>)

  /** The foreign answers of the loaders: the descriptor of the texture a
      loader call yields (None when the call throws), and whether
      `MDLTexture(cubeWithImagesNamed:)` finds a cube for a name. */
  datatype Loader = Loader(
    decode: TextureOrigin -> Option<TextureDescriptor>,
    cubeExists: string -> bool)

  /** A loader call that threw. */
  datatype LoadError = LoadFailed(source: TextureOrigin)

  /** The position of the last `c` in `s`. */
  function LastIndexOf(s: string, c: char): (r: Option<nat>)
    ensures r.None? <==> c !in s
    ensures r.Some? ==> r.value < |s| && s[r.value] == c && c !in s[r.value + 1..]
  {
    if |s| == 0 then None
    else if s[|s| - 1] == c then Some(|s| - 1)
    else
      var r := LastIndexOf(s[..|s| - 1], c);
      assert s == s[..|s| - 1] + [s[|s| - 1]];
      if r.Some? then
        assert s[r.value + 1..] == s[..|s| - 1][r.value + 1..] + [s[|s| - 1]];
        r
      else r
  }

  /** `URL.lastPathComponent`: the part after the last '/'. */
  function LastComponent(path: string): (r: string)
    ensures '/' !in r
    ensures |r| <= |path| && r == path[|path| - |r|..]
  {
    match LastIndexOf(path, '/')
    case None => path
    case Some(i) => path[i + 1..]
  }

  /** `URL.pathExtension`: the part of the last component after its last
      '.', where a leading '.' (a hidden file) starts no extension. */
  function PathExtension(path: string): (r: string)
    ensures '/' !in r && '.' !in r
  {
    var c := LastComponent(path);
    match LastIndexOf(c, '.')
    case None => ""
    case Some(i) => if i == 0 then "" else c[i + 1..]
  }

  /** Appending "." and an extension to a name with a non-empty last
      component gives a path with that extension: the file the lookup asks
      for has the extension that was requested. */
  lemma ExtensionOfAppended(name: string, ext: string)
    requires LastComponent(name) != ""
    requires '.' !in ext && '/' !in ext
    ensures PathExtension(name + "." + ext) == ext
  {
    var c := LastComponent(name);
    var t := "." + ext;
    assert t[0] == '.' && t[1..] == ext;
    Seqs.AppendAssociative(name, ".", ext);
    Seqs.AppendAssociative(c, ".", ext);
    LastComponentAppend(name, t);
    ExtensionOfComponent(name + "." + ext, c, ext);
  }

  /** A last component `c.ext` with `c` non-empty has the extension `ext`. */
  lemma ExtensionOfComponent(p: string, c: string, ext: string)
    requires LastComponent(p) == c + "." + ext
    requires c != "" && '.' !in ext
    ensures PathExtension(p) == ext
  {
    var d := c + ".";
    assert c + "." + ext == d + ext;
    LastIndexOfAppend(d, ext, '.');
    assert LastIndexOf(d, '.') == Some(|c|);
    assert (d + ext)[|c| + 1..] == ext;
  }

  /** A suffix without `c` does not move the last `c`. */
  lemma {:induction false} LastIndexOfAppend(s: string, t: string, c: char)
    requires c !in t
    ensures LastIndexOf(s + t, c) == LastIndexOf(s, c)
    decreases |t|
  {
    if |t| > 0 {
      var t' := t[..|t| - 1];
      assert (s + t)[..|s + t| - 1] == s + t';
      assert (s + t)[|s + t| - 1] == t[|t| - 1];
      assert t[|t| - 1] in t;
      LastIndexOfAppend(s, t', c);
    } else {
      assert s + t == s;
    }
  }

  /** Appending a suffix without '/' extends the last component by it. */
  lemma LastComponentAppend(path: string, t: string)
    requires '/' !in t
    ensures LastComponent(path + t) == LastComponent(path) + t
  {
    LastIndexOfAppend(path, t, '/');
    match LastIndexOf(path, '/')
    case None =>
    case Some(i) =>
      Seqs.DropAppendLeft(path, t, i + 1);
  }

  /** The name and extension Stellar's `recursivePathsForResource` looks
      for: the extension is added only when the name has none of its own. */
  function FullFileName(name: string, extensionName: string): (r: string)
    ensures PathExtension(name) != "" || extensionName == "" ==> r == name
    ensures PathExtension(name) == "" && extensionName != "" ==> r == name + "." + extensionName
  {
    var fileExtension := if PathExtension(name) == "" then extensionName else "";
    name + (if fileExtension == "" then "" else "." + fileExtension)
  }

  /** The last component of every listed file, in order. */
  function LastComponents(files: seq<string>): (r: seq<string>)
    ensures |r| == |files| && forall k :: 0 <= k < |files| ==> r[k] == LastComponent(files[k])
  {
    seq(|files|, k requires 0 <= k < |files| => LastComponent(files[k]))
  }

  /** The index of the first listed file whose last component is `fileName`. */
  function FirstMatch(files: seq<string>, fileName: string): (r: Option<nat>)
    ensures r.None? <==> forall k :: 0 <= k < |files| ==> LastComponent(files[k]) != fileName
    ensures r.Some? ==>
      r.value < |files| && LastComponent(files[r.value]) == fileName &&
      forall k :: 0 <= k < r.value ==> LastComponent(files[k]) != fileName
  {
    var names := LastComponents(files);
    Seqs.FirstIndexByPosition(names, fileName);
    Seqs.FirstIndex(names, fileName)
  }

  /** `recursivePathsForResource`: the directory path joined with the first
      listed file whose last component is the full file name. */
  function RecursivePathForResource(name: string, extensionName: string, directoryPath: string,
                                    files: seq<string>): Option<string>
  {
    PathOfMatch(directoryPath, files, FullFileName(name, extensionName))
  }

  /** The directory path joined with the first listed file whose last
      component is `fileName`. */
  function PathOfMatch(directoryPath: string, files: seq<string>, fileName: string): Option<string>
  {
    match FirstMatch(files, fileName)
    case None => None
    case Some(k) => Some(directoryPath + "/" + files[k])
  }

  lemma PathOfMatchSpec(directoryPath: string, files: seq<string>, fileName: string)
    ensures var r := PathOfMatch(directoryPath, files, fileName);
      (r.None? <==> forall k :: 0 <= k < |files| ==> LastComponent(files[k]) != fileName) &&
      (r.Some? ==>
         exists k :: 0 <= k < |files| && LastComponent(files[k]) == fileName &&
           r.value == directoryPath + "/" + files[k] &&
           forall j :: 0 <= j < k ==> LastComponent(files[j]) != fileName)
  {
    var m := FirstMatch(files, fileName);
    if m.Some? {
      assert LastComponent(files[m.value]) == fileName;
    }
  }

  /** The lookup is nil exactly when no listed file has the full file name,
      and otherwise names the first such file under the directory. */
  lemma RecursivePathSpec(name: string, extensionName: string, directoryPath: string, files: seq<string>)
    ensures var fileName := FullFileName(name, extensionName);
      var r := RecursivePathForResource(name, extensionName, directoryPath, files);
      (r.None? <==> forall k :: 0 <= k < |files| ==> LastComponent(files[k]) != fileName) &&
      (r.Some? ==>
         exists k :: 0 <= k < |files| && LastComponent(files[k]) == fileName &&
           r.value == directoryPath + "/" + files[k] &&
           forall j :: 0 <= j < k ==> LastComponent(files[j]) != fileName)
  {
    PathOfMatchSpec(directoryPath, files, FullFileName(name, extensionName));
  }

  /** The options `loadTexture` passes for a file it found. */
  const FileOptions := LoaderOptions(BottomLeft, false, true)

  /** The options `loadCubeTexture` passes for a cube ModelIO assembled. */
  const CubeOptions := LoaderOptions(TopLeft, false, false)

  /** Stellar's requested extension: "png" when the name has none, else the
      empty string (the `?? ""` of the source). */
  function StellarRequestedExtension(imageName: string): (r: string)
    ensures r == "png" <==> PathExtension(imageName) == ""
    ensures r == "" <==> PathExtension(imageName) != ""
  {
    if PathExtension(imageName) == "" then "png" else ""
  }

  /** Obsidian's requested extension: "png" when the name has none, else nil. */
  function ObsidianRequestedExtension(imageName: string): (r: Option<string>)
    ensures r == Some("png") <==> PathExtension(imageName) == ""
    ensures r.None? <==> PathExtension(imageName) != ""
  {
    if PathExtension(imageName) == "" then Some("png") else None
  }

  /** Both engines ask for the same thing: the file name Stellar searches for
      is the name with ".png" appended exactly when the name has no
      extension (Obsidian's "png" or nil), and otherwise the name itself. */
  lemma RequestedFileName(imageName: string)
    ensures ObsidianRequestedExtension(imageName).Some? ==>
      FullFileName(imageName, StellarRequestedExtension(imageName))
        == imageName + "." + ObsidianRequestedExtension(imageName).value
    ensures ObsidianRequestedExtension(imageName).None? ==>
      FullFileName(imageName, StellarRequestedExtension(imageName)) == imageName
  {
  }

  /** Where Stellar's `loadTexture` takes a texture from. */
  function StellarTextureSource(imageName: string, bundle: Bundle): TextureOrigin
  {
    match RecursivePathForResource(imageName, StellarRequestedExtension(imageName), bundle.path, bundle.files)
    case None => FromCatalog(imageName, 1.0, bundle.name)
    case Some(url) => FromFile(url, FileOptions)
  }

  /** Stellar's policy: the asset catalog (scale 1, this bundle) is used
      exactly when no listed file carries the requested file name; otherwise
      the first such file is loaded with origin bottom-left, SRGB off and
      mipmaps on. */
  lemma StellarFallback(imageName: string, bundle: Bundle)
    ensures var fileName := FullFileName(imageName, StellarRequestedExtension(imageName));
      var source := StellarTextureSource(imageName, bundle);
      (source.FromCatalog? <==> forall k :: 0 <= k < |bundle.files| ==> LastComponent(bundle.files[k]) != fileName) &&
      (source.FromCatalog? ==> source == FromCatalog(imageName, 1.0, bundle.name)) &&
      (source.FromFile? ==>
         source.options == FileOptions &&
         exists k :: 0 <= k < |bundle.files| && LastComponent(bundle.files[k]) == fileName &&
           source.url == bundle.path + "/" + bundle.files[k])
  {
    RecursivePathSpec(imageName, StellarRequestedExtension(imageName), bundle.path, bundle.files);
  }

  /** Where Obsidian's `loadTexture` takes a texture from. */
  function ObsidianTextureSource(imageName: string, bundle: Bundle): (r: TextureOrigin)
    ensures var found := bundle.urlForResource(imageName, ObsidianRequestedExtension(imageName));
      (found.None? ==> r == FromCatalog(imageName, 1.0, bundle.name)) &&
      (found.Some? ==> r == FromFile(found.value, FileOptions))
  {
    match bundle.urlForResource(imageName, ObsidianRequestedExtension(imageName))
    case None => FromCatalog(imageName, 1.0, bundle.name)
    case Some(url) => FromFile(url, FileOptions)
  }

  /** Where `loadCubeTexture` takes a cube map from: the ModelIO cube when one
      exists, otherwise the main bundle's asset catalog. */
  function CubeTextureSource(loader: Loader, imageName: string): (r: TextureOrigin)
    ensures loader.cubeExists(imageName) <==> r.FromCubeImages?
    ensures r.FromCubeImages? ==> r == FromCubeImages(imageName, CubeOptions)
    ensures r.FromCatalog? ==> r == FromCatalog(imageName, 1.0, "main")
  {
    if loader.cubeExists(imageName) then FromCubeImages(imageName, CubeOptions)
    else FromCatalog(imageName, 1.0, "main")
  }

  /** One loader call: a new texture, or the error it throws. */
  method NewTexture(loader: Loader, source: TextureOrigin) returns (r: Result<Texture, LoadError>)
    ensures r.Err? <==> loader.decode(source).None?
    ensures r.Err? ==> r.error == LoadFailed(source)
    ensures r.Ok? ==> fresh(r.value) && r.value.origin == source &&
                      Some(r.value.descriptor) == loader.decode(source)
  {
    var d := loader.decode(source);
    if d.None? {
      return Err(LoadFailed(source));
    }
    var t := new Texture(d.value, "", source);
    return Ok(t);
  }

  /** Stellar's `loadTexture`. It never returns nil without throwing, so its
      result is a texture or an error. */
  method StellarLoadTexture(loader: Loader, imageName: string, bundle: Bundle) returns (r: Result<Texture, LoadError>)
    ensures r.Err? <==> loader.decode(StellarTextureSource(imageName, bundle)).None?
    ensures r.Ok? ==> fresh(r.value) && r.value.origin == StellarTextureSource(imageName, bundle)
  {
    r := NewTexture(loader, StellarTextureSource(imageName, bundle));
  }

  /** Obsidian's `loadTexture`. */
  method ObsidianLoadTexture(loader: Loader, imageName: string, bundle: Bundle) returns (r: Result<Texture, LoadError>)
    ensures r.Err? <==> loader.decode(ObsidianTextureSource(imageName, bundle)).None?
    ensures r.Ok? ==> fresh(r.value) && r.value.origin == ObsidianTextureSource(imageName, bundle)
  {
    r := NewTexture(loader, ObsidianTextureSource(imageName, bundle));
  }

  /** `loadCubeTexture`. */
  method LoadCubeTexture(loader: Loader, imageName: string) returns (r: Result<Texture, LoadError>)
    ensures r.Err? <==> loader.decode(CubeTextureSource(loader, imageName)).None?
    ensures r.Ok? ==> fresh(r.value) && r.value.origin == CubeTextureSource(loader, imageName)
  {
    r := NewTexture(loader, CubeTextureSource(loader, imageName));
  }

  /** The commands of the blit encoder `loadTextureArray` fills. */
  datatype BlitCommand =
    | CopySlice(source: Texture, sourceSlice: nat, sourceLevel: nat, width: nat, height: nat,
                destination: Texture, destinationSlice: nat, destinationLevel: nat)
    | EndBlitEncoding
    | CommitBlits

  /** The descriptor of the array texture: a 2D array with one slice per
      loaded texture, in the first texture's format and size. */
  function ArrayDescriptor(loaded: seq<TextureDescriptor>): (r: Option<TextureDescriptor>)
    ensures r.None? <==> |loaded| == 0
    ensures r.Some? ==>
      r.value.textureType == Type2DArray && r.value.arrayLength == |loaded| &&
      r.value.pixelFormat == loaded[0].pixelFormat &&
      r.value.width == loaded[0].width && r.value.height == loaded[0].height &&
      r.value.sampleCount == DefaultDescriptor.sampleCount &&
      r.value.mipmapped == DefaultDescriptor.mipmapped &&
      r.value.usage == DefaultDescriptor.usage
  {
    if |loaded| == 0 then None
    else Some(DefaultDescriptor.(textureType := Type2DArray, pixelFormat := loaded[0].pixelFormat,
                                 width := loaded[0].width, height := loaded[0].height,
                                 arrayLength := |loaded|))
  }

  /** The copies: loaded texture i goes, level 0 from slice 0, to slice i of
      the array texture, with the array texture's width and height. */
  predicate IsSliceCopies(copies: seq<BlitCommand>, loaded: seq<Texture>, arrayTexture: Texture)
  {
    |copies| == |loaded| &&
    forall i :: 0 <= i < |loaded| ==>
      copies[i] == CopySlice(loaded[i], 0, 0, arrayTexture.descriptor.width, arrayTexture.descriptor.height, arrayTexture, i, 0)
  }

  function Descriptors(ts: seq<Texture>): (r: seq<TextureDescriptor>)
    ensures |r| == |ts| && forall i :: 0 <= i < |ts| ==> r[i] == ts[i].descriptor
  {
    if |ts| == 0 then [] else [ts[0].descriptor] + Descriptors(ts[1..])
  }

  /** `loadTextureArray` (both engines; `load` is each engine's
      `loadTexture`, given by the source each name is loaded from). A load
      that throws stops the process, which is `Err`; no texture loaded gives
      nil; otherwise the array texture is new and the blit commands copy the
      loaded textures into consecutive slices in input order. */
  method LoadTextureArray(loader: Loader, sources: seq<TextureOrigin>)
      returns (r: Result<Option<Texture>, LoadError>, blits: seq<BlitCommand>, loaded: seq<Texture>)
    ensures r.Err? <==> exists i :: 0 <= i < |sources| && loader.decode(sources[i]).None?
    ensures r.Err? ==>
              blits == [] &&
              exists i :: 0 <= i < |sources| && loader.decode(sources[i]).None? &&
                r.error == LoadFailed(sources[i]) &&
                forall j :: 0 <= j < i ==> loader.decode(sources[j]).Some?
    ensures r.Ok? ==>
              |loaded| == |sources| &&
              forall i :: 0 <= i < |sources| ==>
                fresh(loaded[i]) && loaded[i].origin == sources[i] &&
                Some(loaded[i].descriptor) == loader.decode(sources[i])
    ensures r == Ok(None) <==> |sources| == 0 && r.Ok?
    ensures r.Ok? && r.value.Some? ==>
      var arrayTexture := r.value.value;
      fresh(arrayTexture) && Some(arrayTexture.descriptor) == ArrayDescriptor(Descriptors(loaded)) &&
      |blits| == |loaded| + 2 && IsSliceCopies(blits[..|loaded|], loaded, arrayTexture) &&
      blits[|loaded|..] == [EndBlitEncoding, CommitBlits]
  {
    loaded := [];
    var i := 0;
    while i < |sources|
      invariant 0 <= i <= |sources| && |loaded| == i
      invariant forall j :: 0 <= j < i ==> loader.decode(sources[j]).Some?
      invariant forall j :: 0 <= j < i ==>
        fresh(loaded[j]) && loaded[j].origin == sources[j] && Some(loaded[j].descriptor) == loader.decode(sources[j])
    {
      var t := NewTexture(loader, sources[i]);
      if t.Err? {
        return Err(t.error), [], loaded;
      }
      loaded := loaded + [t.value];
      i := i + 1;
    }
    var descriptor := ArrayDescriptor(Descriptors(loaded));
    if descriptor.None? {
      return Ok(None), [], loaded;
    }
    var arrayTexture := new Texture(descriptor.value, "", Allocated);
    blits := [];
    var k := 0;
    while k < |loaded|
      invariant 0 <= k <= |loaded|
      invariant IsSliceCopies(blits, loaded[..k], arrayTexture)
    {
      blits := blits + [CopySlice(loaded[k], 0, 0, arrayTexture.descriptor.width, arrayTexture.descriptor.height, arrayTexture, k, 0)];
      k := k + 1;
    }
    assert loaded[..k] == loaded;
    blits := blits + [EndBlitEncoding, CommitBlits];
    assert blits[..|loaded|] == blits[..|loaded|];
    r := Ok(Some(arrayTexture));
  }
}
