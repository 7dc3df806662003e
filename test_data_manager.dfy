/** TestDataManager: test data read once from the JSON files of a data
    directory, keyed by file name without extension, and looked up by
    category (the file) and key (a top-level entry). Lookups that miss, or
    whose value cannot be converted, give the type's default. File contents
    and their parsing, the environment and the deserialiser are inputs. */
module TestData {
  import opened Common

  datatype JsonValue =
    | JNull
    | JBool(b: bool)
    | JNumber(n: int)
    | JString(s: string)
    | JArray(items: seq<JsonValue>)
    | JObject(fields: map<string, JsonValue>)

  /** What reading and deserialising one data file gives: the read threw,
      the parse threw, the document was JSON null, or a top-level object. */
  datatype FileContent = Unreadable | Malformed | NullDocument | Document(entries: map<string, JsonValue>)

  datatype DataFile = DataFile(path: string, content: FileContent)

  /** Category (file name without extension) to its top-level entries. */
  type DataMap = map<string, map<string, JsonValue>>

  const DataPathKey: string := "TestSettings:TestDataPath"

  /** The directory searched for *.json files. */
  function DataDirectory(config: Config): (dir: string)
    ensures DataPathKey !in config ==> dir == "TestData"
  {
    Lookup(config, DataPathKey).GetOr("TestData")
  }

  // ---------------------------------------------------------------------
  // Path.GetFileNameWithoutExtension

  predicate IsSeparator(c: char, windows: bool) {
    c == '/' || (windows && c == '\\')
  }

  predicate NoSeparator(s: string, windows: bool) {
    forall i :: 0 <= i < |s| ==> !IsSeparator(s[i], windows)
  }

  /** The part of a path after its last directory separator. */
  function BaseName(path: string, windows: bool): (name: string)
    ensures |name| <= |path| && name == path[|path| - |name|..]
    ensures NoSeparator(name, windows)
    ensures |name| < |path| ==> IsSeparator(path[|path| - |name| - 1], windows)
  {
    if path == [] then []
    else if IsSeparator(path[|path| - 1], windows) then []
    else BaseName(path[..|path| - 1], windows) + [path[|path| - 1]]
  }

  /** The index of the last '.', or -1 when there is none. */
  function LastDot(name: string): (k: int)
    ensures -1 <= k < |name|
    ensures k >= 0 ==> name[k] == '.'
    ensures forall j :: k < j < |name| ==> name[j] != '.'
  {
    if name == [] then -1
    else if name[|name| - 1] == '.' then |name| - 1
    else LastDot(name[..|name| - 1])
  }

  /** The file name without directory and without its last extension. */
  function FileStem(path: string, windows: bool): (stem: string)
    ensures NoSeparator(stem, windows)
  {
    var name := BaseName(path, windows);
    var k := LastDot(name);
    if k < 0 then name else name[..k]
  }

  /** A file `<dir>/<name>.json` is filed under `name`. */
  lemma FileStemOfDataFile(dir: string, name: string, windows: bool)
    requires NoSeparator(name, windows)
    ensures FileStem(dir + "/" + name + ".json", windows) == name
  {
    var path := dir + "/" + name + ".json";
    var file := name + ".json";
    assert path == (dir + "/") + file;
    BaseNameAfterSeparator(dir + "/", file, windows);
    LastDotOfJsonName(name);
    assert file[..|name|] == name;
  }

  lemma LastDotOfJsonName(name: string)
    ensures LastDot(name + ".json") == |name|
  {
    var s0 := name + ['.'];
    var s1 := s0 + ['j'];
    var s2 := s1 + ['s'];
    var s3 := s2 + ['o'];
    var s4 := s3 + ['n'];
    JsonSuffixSpelled(name);
    LastDotAppend(name, '.');
    LastDotAppend(s0, 'j');
    LastDotAppend(s1, 's');
    LastDotAppend(s2, 'o');
    LastDotAppend(s3, 'n');
  }

  lemma JsonSuffixSpelled(name: string)
    ensures name + ".json" == name + ['.'] + ['j'] + ['s'] + ['o'] + ['n']
  {
    var spelled := name + ['.'] + ['j'] + ['s'] + ['o'] + ['n'];
    assert forall i :: 0 <= i < |spelled| ==> spelled[i] == (name + ".json")[i];
  }

  /** One more character: a dot becomes the last dot, anything else keeps it. */
  lemma LastDotAppend(s: string, c: char)
    ensures LastDot(s + [c]) == if c == '.' then |s| else LastDot(s)
  {
    assert (s + [c])[..|s|] == s;
  }

  lemma {:induction false} BaseNameAfterSeparator(prefix: string, name: string, windows: bool)
    requires prefix != [] && IsSeparator(prefix[|prefix| - 1], windows)
    requires NoSeparator(name, windows)
    ensures BaseName(prefix + name, windows) == name
  {
    if name == [] {
      assert prefix + name == prefix;
    } else {
      var init := name[..|name| - 1];
      assert (prefix + name)[..|prefix + name| - 1] == prefix + init;
      BaseNameAfterSeparator(prefix, init, windows);
      assert init + [name[|name| - 1]] == name;
    }
  }

  // ---------------------------------------------------------------------
  // Loading

  /** LoadTestData over the files still to read, on top of `acc`: a file
      that cannot be read or parsed ends the load (the exception is caught
      around the whole loop), a null document is skipped, and a document is
      stored under its stem, replacing any earlier one. */
  function Load(acc: DataMap, files: seq<DataFile>, windows: bool): DataMap
    decreases |files|
  {
    if files == [] then acc
    else if files[0].content.Document? then
      Load(acc[FileStem(files[0].path, windows) := files[0].content.entries], files[1..], windows)
    else if files[0].content.NullDocument? then Load(acc, files[1..], windows)
    else acc
  }

  /** The number of files read before the first one that throws. */
  function FirstFailure(files: seq<DataFile>): (k: nat)
    ensures k <= |files|
    ensures forall j :: 0 <= j < k ==> files[j].content.NullDocument? || files[j].content.Document?
    ensures k < |files| ==> files[k].content.Unreadable? || files[k].content.Malformed?
  {
    if files == [] then 0
    else if files[0].content.Unreadable? || files[0].content.Malformed? then 0
    else 1 + FirstFailure(files[1..])
  }

  /** The categories present are those of the documents read before the
      first failure (and whatever was there before). */
  lemma {:induction false} LoadedCategories(acc: DataMap, files: seq<DataFile>, windows: bool, category: string)
    ensures category in Load(acc, files, windows) <==>
              category in acc
              || exists i :: 0 <= i < FirstFailure(files) && files[i].content.Document?
                             && FileStem(files[i].path, windows) == category
    decreases |files|
  {
    if files != [] && (files[0].content.NullDocument? || files[0].content.Document?) {
      var next := if files[0].content.Document?
                  then acc[FileStem(files[0].path, windows) := files[0].content.entries] else acc;
      LoadedCategories(next, files[1..], windows, category);
      assert FirstFailure(files) == 1 + FirstFailure(files[1..]);
      if exists i :: 0 <= i < FirstFailure(files[1..]) && files[1..][i].content.Document?
                     && FileStem(files[1..][i].path, windows) == category {
        var i :| 0 <= i < FirstFailure(files[1..]) && files[1..][i].content.Document?
                 && FileStem(files[1..][i].path, windows) == category;
        assert files[i + 1] == files[1..][i];
      }
      if exists i :: 0 <= i < FirstFailure(files) && files[i].content.Document?
                     && FileStem(files[i].path, windows) == category {
        var i :| 0 <= i < FirstFailure(files) && files[i].content.Document?
                 && FileStem(files[i].path, windows) == category;
        if i > 0 {
          assert files[1..][i - 1] == files[i];
        }
      }
    }
  }

  /** The last document read for a category before the first failure is
      the one kept. */
  lemma {:induction false} LaterFileWins(acc: DataMap, files: seq<DataFile>, windows: bool, i: nat)
    requires i < FirstFailure(files) && files[i].content.Document?
    requires forall j :: i < j < FirstFailure(files) && files[j].content.Document? ==>
               FileStem(files[j].path, windows) != FileStem(files[i].path, windows)
    ensures FileStem(files[i].path, windows) in Load(acc, files, windows)
    ensures Load(acc, files, windows)[FileStem(files[i].path, windows)] == files[i].content.entries
    decreases |files|
  {
    var next := Stored(acc, files[0], windows);
    LoadStep(acc, files, windows);
    var rest := files[1..];
    if i == 0 {
      forall j | 0 <= j < FirstFailure(rest) && rest[j].content.Document?
        ensures FileStem(rest[j].path, windows) != FileStem(files[0].path, windows)
      {
        assert rest[j] == files[j + 1];
      }
      KeptUntilOverwritten(next, rest, windows, FileStem(files[0].path, windows));
    } else {
      assert rest[i - 1] == files[i];
      forall j | i - 1 < j < FirstFailure(rest) && rest[j].content.Document?
        ensures FileStem(rest[j].path, windows) != FileStem(rest[i - 1].path, windows)
      {
        assert rest[j] == files[j + 1];
      }
      LaterFileWins(next, rest, windows, i - 1);
    }
  }

  /** The map after one readable file is stored. */
  function Stored(acc: DataMap, file: DataFile, windows: bool): DataMap {
    if file.content.Document? then acc[FileStem(file.path, windows) := file.content.entries] else acc
  }

  /** One readable file is consumed: the rest is loaded on top of it. */
  lemma LoadStep(acc: DataMap, files: seq<DataFile>, windows: bool)
    requires 0 < FirstFailure(files)
    ensures FirstFailure(files) == 1 + FirstFailure(files[1..])
    ensures Load(acc, files, windows) == Load(Stored(acc, files[0], windows), files[1..], windows)
  {
  }

  /** A category no later document names keeps its value. */
  lemma {:induction false} KeptUntilOverwritten(acc: DataMap, files: seq<DataFile>, windows: bool, category: string)
    requires category in acc
    requires forall j :: 0 <= j < FirstFailure(files) && files[j].content.Document? ==>
               FileStem(files[j].path, windows) != category
    ensures category in Load(acc, files, windows) && Load(acc, files, windows)[category] == acc[category]
    decreases |files|
  {
    if files != [] && (files[0].content.NullDocument? || files[0].content.Document?) {
      var next := if files[0].content.Document?
                  then acc[FileStem(files[0].path, windows) := files[0].content.entries] else acc;
      assert FirstFailure(files) == 1 + FirstFailure(files[1..]);
      forall j | 0 <= j < FirstFailure(files[1..]) && files[1..][j].content.Document?
        ensures FileStem(files[1..][j].path, windows) != category
      {
        assert files[1..][j] == files[j + 1];
      }
      KeptUntilOverwritten(next, files[1..], windows, category);
    }
  }

  /** The load as a whole: a listing that throws gives no data. */
  function Loaded(listing: Option<seq<DataFile>>, windows: bool): DataMap {
    match listing
    case None => map[]
    case Some(files) => Load(map[], files, windows)
  }

  /** LoadTestData, file by file. */
  method LoadTestData(listing: Option<seq<DataFile>>, windows: bool) returns (data: DataMap)
    ensures data == Loaded(listing, windows)
  {
    data := map[];
    if listing.None? {
      return;
    }
    var files := listing.value;
    var i := 0;
    while i < |files|
      invariant 0 <= i <= |files|
      invariant Load(data, files[i..], windows) == Load(map[], files, windows)
    {
      assert files[i..][1..] == files[i + 1..];
      match files[i].content {
        case Unreadable =>
          return;
        case Malformed =>
          return;
        case NullDocument =>
        case Document(entries) =>
          data := data[FileStem(files[i].path, windows) := entries];
      }
      i := i + 1;
    }
    assert files[i..] == [];
  }

  class TestDataManager {
    const config: Config
    /** The process environment variables. */
    const environment: map<string, string>
    const testData: DataMap

    /** The constructor loads the data from the listing of the data
        directory (None when listing it throws). */
    constructor (config: Config, environment: map<string, string>, listing: Option<seq<DataFile>>, windows: bool)
      ensures this.config == config && this.environment == environment
      ensures testData == Loaded(listing, windows)
    {
      this.config := config;
      this.environment := environment;
      var data := LoadTestData(listing, windows);
      testData := data;
    }

    /** GetTestData<T>: the value under `category` and `key`, converted by
        `decode` from its text (None when the conversion throws or yields
        null); a missing category or key, or a null value (whose ToString
        throws), gives None, standing for default(T). */
    function GetTestData<T>(category: string, key: string, decode: JsonValue -> Option<T>): (r: Option<T>)
      ensures r.Some? ==> category in testData && key in testData[category] && testData[category][key] != JNull
      ensures category in testData && key in testData[category] && testData[category][key] != JNull ==>
                r == decode(testData[category][key])
    {
      if category in testData && key in testData[category] && testData[category][key] != JNull then
        decode(testData[category][key])
      else None
    }

    /** GetUserCredentials: the "users" entry for the user type, or an
        empty map on a miss; never null. */
    function GetUserCredentials(userType: string, decode: JsonValue -> Option<map<string, string>>): (r: map<string, string>)
      ensures GetTestData("users", userType, decode).None? ==> r == map[]
      ensures GetTestData("users", userType, decode).Some? ==> r == GetTestData("users", userType, decode).value
    {
      GetTestData("users", userType, decode).GetOr(map[])
    }

    /** GetConnectionString: the configured connection string, "" when unset. */
    function GetConnectionString(name: string): (r: string)
      ensures "ConnectionStrings:" + name in config ==> r == config["ConnectionStrings:" + name]
      ensures "ConnectionStrings:" + name !in config ==> r == ""
    {
      Lookup(config, "ConnectionStrings:" + name).GetOr("")
    }

    /** GetEnvironmentVariable: the variable's value, "" when unset. */
    function GetEnvironmentVariable(name: string): (r: string)
      ensures name in environment ==> r == environment[name]
      ensures name !in environment ==> r == ""
    {
      Lookup(environment, name).GetOr("")
    }
  }

  /** A user listed in the last users.json read before any failure is found
      with that file's entry. */
  lemma CredentialsFromLoadedFile(m: TestDataManager, files: seq<DataFile>, windows: bool, i: nat,
                                  userType: string, decode: JsonValue -> Option<map<string, string>>)
    requires m.testData == Loaded(Some(files), windows)
    requires i < FirstFailure(files) && files[i].content.Document? && FileStem(files[i].path, windows) == "users"
    requires forall j :: i < j < FirstFailure(files) && files[j].content.Document? ==> FileStem(files[j].path, windows) != "users"
    requires userType in files[i].content.entries && files[i].content.entries[userType] != JNull
    ensures m.GetTestData("users", userType, decode) == decode(files[i].content.entries[userType])
  {
    LaterFileWins(map[], files, windows, i);
  }
}
