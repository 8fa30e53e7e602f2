/** The asset-list generator: every model file whose extension is ".glb" in
    any letter case becomes a record with an id, a display name, a path
    under the models URL and a category, in directory order. File names are
    directory entries, so they hold no '/'. */
module Assets {
  import opened Text

  const BaseUrl: string := "./assets/models/"

  const Category: string := "Uncategorized"

  /** One entry of assets.json (the thumbnail URL is left out). */
  datatype Asset = Asset(id: string, name: string, path: string, category: string)

  /** The position of the last '.', or -1. */
  function LastDot(s: string): (k: int)
    ensures -1 <= k < |s|
    ensures k >= 0 ==> s[k] == '.'
    ensures forall j :: k < j < |s| ==> s[j] != '.'
  {
    if |s| == 0 then -1
    else if s[|s| - 1] == '.' then |s| - 1
    else LastDot(s[..|s| - 1])
  }

  /** `path.extname(file)` for a name without '/': from the last dot on,
      except that a name with no dot, a name whose only leading dot is its
      last dot (".glb"), and the name ".." have none. */
  function Extname(file: string): (e: string)
    ensures e == "" || (e[0] == '.' && EndsWith(file, e) && '.' !in e[1..])
    ensures LastDot(file) > 0 && file != ".." ==> e == file[LastDot(file)..]
  {
    var k := LastDot(file);
    if k <= 0 || file == ".." then ""
    else
      assert forall j :: 1 <= j < |file[k..]| ==> file[k..][j] == file[k + j];
      file[k..]
  }

  /** The filter: the extension, lower-cased, is ".glb". */
  predicate IsModelFile(file: string)
  {
    Lower(Extname(file)) == ".glb"
  }

  /** `path.basename(file, '.glb')` for a name without '/': the suffix is
      removed only when it matches exactly, letter case included. */
  function Basename(file: string): (b: string)
    ensures EndsWith(file, ".glb") ==> b + ".glb" == file
    ensures !EndsWith(file, ".glb") ==> b == file
  {
    if EndsWith(file, ".glb") then file[..|file| - 4] else file
  }

  /** The display name: a space before each capital, underscores to
      spaces, then trimmed. */
  function ModelName(base: string): (name: string)
    ensures '_' !in name
    ensures |name| == 0 || (!IsJsWhitespace(name[0]) && !IsJsWhitespace(name[|name| - 1]))
  {
    var spaced := ReplaceChar(SpaceBeforeCapitals(base), '_', ' ');
    assert '_' !in spaced by {
      forall i | 0 <= i < |spaced|
        ensures spaced[i] != '_'
      {
      }
    }
    Trim(spaced)
  }

  /** One character of an id: ASCII capitals lower-cased, a space turned
      into an underscore, anything else kept. */
  function IdChar(c: char): (d: char)
    ensures d != ' ' && !IsAsciiUpper(d)
    ensures c != ' ' && !IsAsciiUpper(c) ==> d == c
  {
    if c == ' ' then '_' else AsciiLower(c)
  }

  /** The id: the base name lower-cased, spaces to underscores, character
      by character; an id is its own id. */
  function AssetId(base: string): (id: string)
    ensures |id| == |base|
    ensures forall i :: 0 <= i < |base| ==> id[i] == IdChar(base[i])
    ensures ' ' !in id
    ensures forall i :: 0 <= i < |id| ==> !IsAsciiUpper(id[i])
  {
    var r := ReplaceChar(Lower(base), ' ', '_');
    assert forall i :: 0 <= i < |base| ==> r[i] == IdChar(base[i]);
    r
  }

  /** Ids are stable: taking the id of an id changes nothing. */
  lemma AssetIdIdempotent(base: string)
    ensures AssetId(AssetId(base)) == AssetId(base)
  {
    var id := AssetId(base);
    assert forall i :: 0 <= i < |id| ==> IdChar(id[i]) == id[i];
  }

  /** The record for one model file: the id and the display name come from
      the file name without its ".glb", the path is the file under the
      models folder. */
  function MakeAsset(file: string): (a: Asset)
    ensures var stem := if EndsWith(file, ".glb") then file[..|file| - 4] else file;
      && |a.id| == |stem|
      && (forall i :: 0 <= i < |stem| ==> a.id[i] == IdChar(file[i]))
      && a.name == ModelName(stem)
    ensures |a.path| == |BaseUrl| + |file| && StartsWith(a.path, BaseUrl) && a.path[|BaseUrl|..] == file
    ensures a.category == Category
  {
    var base := Basename(file);
    assert |BaseUrl| == 16;
    assert (BaseUrl + file)[..|BaseUrl|] == BaseUrl;
    Asset(AssetId(base), ModelName(base), BaseUrl + file, Category)
  }

  // ---------------------------------------------------------------------------
  // The listing, filtered and mapped

  /** The records `make` builds from the entries `keep` accepts, in order. */
  function FilterMap(files: seq<string>, keep: string -> bool, make: string -> Asset): (r: seq<Asset>)
    ensures |r| <= |files|
  {
    if |files| == 0 then []
    else
      var last := files[|files| - 1];
      FilterMap(files[..|files| - 1], keep, make) + (if keep(last) then [make(last)] else [])
  }

  /** The entries `keep` accepts, in order. */
  function Filter(files: seq<string>, keep: string -> bool): (r: seq<string>)
    ensures forall k :: 0 <= k < |r| ==> keep(r[k]) && r[k] in files
    ensures forall f :: f in files && keep(f) ==> f in r
  {
    if |files| == 0 then []
    else
      var init := files[..|files| - 1];
      var last := files[|files| - 1];
      assert files == init + [last];
      Filter(init, keep) + (if keep(last) then [last] else [])
  }

  lemma {:induction false} FilterMapFollowsFilter(files: seq<string>, keep: string -> bool, make: string -> Asset)
    ensures |FilterMap(files, keep, make)| == |Filter(files, keep)|
    ensures forall k :: 0 <= k < |FilterMap(files, keep, make)| ==>
      FilterMap(files, keep, make)[k] == make(Filter(files, keep)[k])
  {
    if |files| > 0 {
      FilterMapFollowsFilter(files[..|files| - 1], keep, make);
    }
  }

  lemma {:induction false} FilterMapConcat(a: seq<string>, b: seq<string>, keep: string -> bool, make: string -> Asset)
    ensures FilterMap(a + b, keep, make) == FilterMap(a, keep, make) + FilterMap(b, keep, make)
  {
    if |b| == 0 {
      assert a + b == a;
    } else {
      var b' := b[..|b| - 1];
      assert (a + b)[..|a + b| - 1] == a + b';
      assert (a + b)[|a + b| - 1] == b[|b| - 1];
      FilterMapConcat(a, b', keep, make);
    }
  }

  /** Reference definition: the records of the model files, in order. */
  function AssetsOf(files: seq<string>): seq<Asset>
  {
    FilterMap(files, IsModelFile, MakeAsset)
  }

  /** The model files among `files`, in order. */
  function ModelFiles(files: seq<string>): (r: seq<string>)
    ensures forall k :: 0 <= k < |r| ==> IsModelFile(r[k]) && r[k] in files
    ensures forall f :: f in files && IsModelFile(f) ==> f in r
  {
    Filter(files, IsModelFile)
  }

  /** The list holds one record per model file, in directory order. */
  lemma AssetsFollowModelFiles(files: seq<string>)
    ensures |AssetsOf(files)| == |ModelFiles(files)|
    ensures forall k :: 0 <= k < |AssetsOf(files)| ==> AssetsOf(files)[k] == MakeAsset(ModelFiles(files)[k])
  {
    FilterMapFollowsFilter(files, IsModelFile, MakeAsset);
  }

  /** The records of two directory listings one after the other are those
      of the first followed by those of the second. */
  lemma AssetsOfConcat(a: seq<string>, b: seq<string>)
    ensures AssetsOf(a + b) == AssetsOf(a) + AssetsOf(b)
  {
    FilterMapConcat(a, b, IsModelFile, MakeAsset);
  }

  /** The generator's loop over the directory listing. */
  method GenerateAssetList(files: seq<string>) returns (assets: seq<Asset>)
    ensures assets == AssetsOf(files)
    ensures |assets| <= |files|
  {
    assets := [];
    var i := 0;
    while i < |files|
      invariant 0 <= i <= |files|
      invariant assets == AssetsOf(files[..i])
      invariant |assets| <= i
    {
      var file := files[i];
      assert files[..i + 1][..i] == files[..i];
      if Lower(Extname(file)) == ".glb" {
        assets := assets + [MakeAsset(file)];
      }
      i := i + 1;
    }
    assert files[..i] == files;
  }

  /** A name whose last dot is the first character of `ext` and not the
      first character of the name has `ext` as its extension. */
  lemma ExtnameOf(stem: string, ext: string)
    requires |stem| > 0 && '.' !in stem
    requires |ext| > 0 && ext[0] == '.' && '.' !in ext[1..]
    ensures Extname(stem + ext) == ext
  {
    var file := stem + ext;
    assert file[|stem|] == '.';
    assert file[|stem| + 1..] == ext[1..];
    var k := LastDot(file);
    assert k >= |stem|;
    assert forall j :: 1 <= j < |ext| ==> ext[j] != '.';
    assert file[k] == ext[k - |stem|];
    assert k == |stem|;
    assert file[0] == stem[0] != '.';
  }

  /** A model file named `stem.glb` yields the record built from its stem. */
  lemma LowerCaseModelFile(stem: string)
    requires |stem| > 0 && '.' !in stem
    ensures IsModelFile(stem + ".glb")
    ensures MakeAsset(stem + ".glb") == Asset(AssetId(stem), ModelName(stem), BaseUrl + stem + ".glb", Category)
  {
    LowerCaseIsModelFile(stem);
    LowerExtensionStripped(stem);
  }

  lemma LowerCaseIsModelFile(stem: string)
    requires |stem| > 0 && '.' !in stem
    ensures IsModelFile(stem + ".glb")
  {
    ExtnameOf(stem, ".glb");
    assert Lower(".glb") == ".glb";
  }

  lemma LowerExtensionStripped(stem: string)
    ensures Basename(stem + ".glb") == stem
  {
    var file := stem + ".glb";
    assert file[|file| - 4..] == ".glb";
    assert file[..|file| - 4] == stem;
  }

  /** The id of two names run together is the two ids run together. */
  lemma AssetIdConcat(a: string, b: string)
    ensures AssetId(a + b) == AssetId(a) + AssetId(b)
  {
    LowerConcat(a, b);
    ReplaceCharConcat(Lower(a), Lower(b), ' ', '_');
  }

  lemma UpperExtensionId()
    ensures AssetId(".GLB") == ".glb"
  {
    assert Lower(".GLB") == ".glb";
    assert ReplaceChar(".glb", ' ', '_') == ".glb";
  }

  lemma UpperExtensionNotStripped(stem: string)
    ensures Basename(stem + ".GLB") == stem + ".GLB"
  {
    var file := stem + ".GLB";
    assert file[|file| - 4..] == ".GLB";
    assert file[|file| - 3] != ".glb"[1];
  }

  /** An upper-case ".GLB" passes the filter, but the suffix strip is case
      sensitive, so the id keeps the extension (lower-cased). */
  lemma UpperCaseExtensionKept(stem: string)
    requires |stem| > 0 && '.' !in stem
    ensures IsModelFile(stem + ".GLB")
    ensures MakeAsset(stem + ".GLB").id == AssetId(stem) + ".glb"
  {
    ExtnameOf(stem, ".GLB");
    assert Lower(".GLB") == ".glb";
    UpperExtensionNotStripped(stem);
    AssetIdConcat(stem, ".GLB");
    UpperExtensionId();
  }

  /** Trimming a name with no whitespace at either end, after one leading
      space, gives back the name. */
  lemma TrimLeadingSpace(name: string)
    requires |name| > 0 && !IsJsWhitespace(name[0]) && !IsJsWhitespace(name[|name| - 1])
    ensures Trim(" " + name) == name
  {
    assert (" " + name)[1..] == name;
    assert TrimStart(" " + name) == TrimStart(name);
  }

  predicate LowerWord(w: string)
  {
    forall i :: 0 <= i < |w| ==> IsAsciiLower(w[i])
  }

  /** A capitalised word gets one space in front. */
  lemma SpacedWord(u: char, w: string)
    requires IsAsciiUpper(u) && LowerWord(w)
    ensures SpaceBeforeCapitals([u] + w) == " " + [u] + w
  {
    SpaceBeforeCapitalsConcat([u], w);
    SpaceBeforeCapitalsNone(w);
    assert SpaceBeforeCapitals([u]) == " " + [u];
  }

  /** Capitals in two capitalised words each get a space in front. */
  lemma SpacedCamel(u1: char, w1: string, u2: char, w2: string)
    requires IsAsciiUpper(u1) && IsAsciiUpper(u2) && LowerWord(w1) && LowerWord(w2)
    ensures SpaceBeforeCapitals([u1] + w1 + [u2] + w2) == " " + ([u1] + w1 + " " + [u2] + w2)
  {
    var a := [u1] + w1;
    var b := [u2] + w2;
    assert a + b == [u1] + w1 + [u2] + w2;
    SpaceBeforeCapitalsConcat(a, b);
    SpacedWord(u1, w1);
    SpacedWord(u2, w2);
    assert " " + [u1] + w1 + (" " + [u2] + w2) == " " + ([u1] + w1 + " " + [u2] + w2);
  }

  /** A name made of letters and spaces holds no underscore. */
  lemma NoUnderscore(u1: char, w1: string, u2: char, w2: string)
    requires IsAsciiUpper(u1) && IsAsciiUpper(u2) && LowerWord(w1) && LowerWord(w2)
    ensures '_' !in " " + ([u1] + w1 + " " + [u2] + w2)
  {
    var n := " " + ([u1] + w1 + " " + [u2] + w2);
    forall i | 0 <= i < |n|
      ensures n[i] != '_'
    {
      if 2 <= i <= |w1| + 1 {
        assert n[i] == w1[i - 2];
      } else if |w1| + 4 <= i {
        assert n[i] == w2[i - |w1| - 4];
      }
    }
  }

  /** A base whose spaced form is one space before a name with no
      underscore and no whitespace at either end has that name. */
  lemma ModelNameOfSpaced(base: string, name: string)
    requires SpaceBeforeCapitals(base) == " " + name && '_' !in " " + name
    requires |name| > 0 && !IsJsWhitespace(name[0]) && !IsJsWhitespace(name[|name| - 1])
    ensures ModelName(base) == name
  {
    ReplaceCharAbsent(" " + name, '_', ' ');
    TrimLeadingSpace(name);
  }

  /** Two capitalised words run together get a space between them in the
      display name. */
  lemma CamelCaseName(u1: char, w1: string, u2: char, w2: string)
    requires IsAsciiUpper(u1) && IsAsciiUpper(u2) && LowerWord(w1) && LowerWord(w2)
    ensures ModelName([u1] + w1 + [u2] + w2) == [u1] + w1 + " " + [u2] + w2
  {
    var name := [u1] + w1 + " " + [u2] + w2;
    SpacedCamel(u1, w1, u2, w2);
    NoUnderscore(u1, w1, u2, w2);
    assert name[0] == u1;
    assert name[|name| - 1] == ([u2] + w2)[|w2|];
    ModelNameOfSpaced([u1] + w1 + [u2] + w2, name);
  }

  /** A base of letters only has its lower-cased self as id. */
  lemma LettersId(base: string)
    requires forall i :: 0 <= i < |base| ==> IsAsciiUpper(base[i]) || IsAsciiLower(base[i])
    ensures AssetId(base) == Lower(base)
  {
    ReplaceCharAbsent(Lower(base), ' ', '_');
  }

  /** The spelling of the example's base and display name. */
  lemma TreeOakWords(w1: string, w2: string)
    requires w1 == "ree" && w2 == "ak"
    ensures ['T'] + w1 + " " + ['O'] + w2 == "Tree Oak"
    ensures ['T'] + w1 + ['O'] + w2 == "TreeOak"
  {
  }

  lemma TreeOakName(stem: string, w1: string, w2: string)
    requires w1 == "ree" && w2 == "ak" && stem == ['T'] + w1 + ['O'] + w2
    ensures ModelName(stem) == ['T'] + w1 + " " + ['O'] + w2
  {
    CamelCaseName('T', w1, 'O', w2);
  }

  lemma TreeOakId(stem: string)
    requires stem == "TreeOak"
    ensures AssetId(stem) == "treeoak"
  {
    LettersId(stem);
    assert Lower(stem) == "treeoak";
  }

  /** "TreeOak.glb" becomes id "treeoak" and name "Tree Oak". */
  lemma TreeOakExample(stem: string, w1: string, w2: string)
    requires w1 == "ree" && w2 == "ak" && stem == ['T'] + w1 + ['O'] + w2
    ensures IsModelFile(stem + ".glb")
    ensures MakeAsset(stem + ".glb").name == "Tree Oak"
    ensures MakeAsset(stem + ".glb").id == "treeoak"
  {
    TreeOakWords(w1, w2);
    TreeOakName(stem, w1, w2);
    TreeOakId(stem);
    LowerCaseModelFile(stem);
  }

  /** A hidden file named ".glb" has no extension and is skipped. */
  lemma DotFileSkipped(file: string)
    requires file == ".glb"
    ensures !IsModelFile(file)
  {
    assert file[0] == '.' && file[1] != '.' && file[2] != '.' && file[3] != '.';
    assert LastDot(file) == 0;
  }
}
