/**
 * The asset-download construct (lib/codebuild-assets-download.resource.ts): from a table of named
 * asset URLs it configures a CodeBuild project that downloads each asset and copies it to S3, and
 * it reads back one S3 location per asset from the custom resource that runs the project.
 */
module AssetsDownload {
  import opened Wrappers
  import opened Numbers

  /** An entry of `assets`: its name (the key) and its URL, in the order Object.entries yields them. */
  datatype Asset = Asset(name: string, url: string)

  /**
   * What the constructor hands to the downloader project and to the custom resource: the
   * plain-text environment variables, the exported variables, the result paths and the commands.
   */
  datatype Downloader = Downloader(
    environmentVariables: map<string, string>,
    exportedVariables: seq<string>,
    resultJsonPaths: seq<string>,
    commands: seq<string>)

  const BucketVariable := "S3_BUCKET"
  const MkdirCommand := "mkdir -p ./download/ &&  cd ./download/"
  const DownloadUrlSuffix := "_DOWNLOAD_URL"
  const S3LocationSuffix := "_S3_LOCATION"

  // ---------------------------------------------------------------------------------------------
  // Names and strings

  /** `toUpperCase` of one character, on ASCII letters. */
  function UpperCaseChar(c: char): (u: char)
    ensures !('a' <= u <= 'z')
    ensures 'a' <= c <= 'z' ==> u as int == c as int - 32
    ensures !('a' <= c <= 'z') ==> u == c
  {
    if 'a' <= c <= 'z' then (c as int - 32) as char else c
  }

  /** `s.toUpperCase()`, on ASCII letters. */
  function ToUpperCase(s: string): (r: string)
    ensures |r| == |s|
    ensures forall i :: 0 <= i < |s| ==> r[i] == UpperCaseChar(s[i])
  {
    seq(|s|, i requires 0 <= i < |s| => UpperCaseChar(s[i]))
  }

  /** `s.replaceAll(from, to)` for one-character strings. */
  function ReplaceAll(s: string, from: char, to: char): (r: string)
    ensures |r| == |s|
    ensures forall i :: 0 <= i < |s| ==> r[i] == if s[i] == from then to else s[i]
  {
    seq(|s|, i requires 0 <= i < |s| => if s[i] == from then to else s[i])
  }

  /**
   * The mangled asset name: upper case, with every '-' replaced by '_'. It has the name's length,
   * no '-' and no lower-case letter left.
   */
  function MangleName(name: string): (upper: string)
    ensures |upper| == |name|
    ensures forall i :: 0 <= i < |name| ==> upper[i] != '-' && !('a' <= upper[i] <= 'z')
    ensures forall i :: 0 <= i < |name| ==> upper[i] == if name[i] == '-' then '_' else UpperCaseChar(name[i])
  {
    ReplaceAll(ToUpperCase(name), '-', '_')
  }

  function UrlVariable(name: string): string
  {
    MangleName(name) + DownloadUrlSuffix
  }

  function LocationVariable(name: string): string
  {
    MangleName(name) + S3LocationSuffix
  }

  /** The jsonpath that reads an exported variable's value from the finished build. */
  function FilterPath(variable: string): string
  {
    "$.exportedEnvironmentVariables[?(@.name=='" + variable + "')].value"
  }

  function ExportCommand(location: string, url: string): string
  {
    "export " + location + "=${S3_BUCKET}$(basename $" + url + ")"
  }

  function WgetCommand(url: string): string
  {
    "wget $" + url
  }

  function CopyCommand(location: string, url: string): string
  {
    "aws s3 cp ./$(basename $" + url + ") $" + location
  }

  // ---------------------------------------------------------------------------------------------
  // The first loop: configuring the downloader

  /** One pass of the first loop: set the URL variable, push the location, its path and three commands. */
  function AddAsset(d: Downloader, asset: Asset): Downloader
  {
    var url := UrlVariable(asset.name);
    var location := LocationVariable(asset.name);
    Downloader(
      d.environmentVariables[url := asset.url],
      d.exportedVariables + [location],
      d.resultJsonPaths + [FilterPath(location)],
      d.commands + [ExportCommand(location, url), WgetCommand(url), CopyCommand(location, url)])
  }

  /** The configuration after the first loop has gone over `assets`. */
  function DownloaderAfter(s3Url: string, assets: seq<Asset>): Downloader
  {
    if assets == [] then Downloader(map[BucketVariable := s3Url], [], [], [MkdirCommand])
    else AddAsset(DownloaderAfter(s3Url, assets[..|assets| - 1]), assets[|assets| - 1])
  }

  // ---------------------------------------------------------------------------------------------
  // The second loop: reading the S3 locations back

  /**
   * What one pass of the second loop assigns. It destructures the KEY STRING as `[index, assetName]`,
   * so it writes under the key's second character ("undefined" when there is none) the result at
   * parseInt of the key's first character (None, i.e. undefined, when that is NaN or out of range).
   */
  function EntryFor(key: string, results: seq<string>): (string, Option<string>)
  {
    var assetName := if |key| >= 2 then [key[1]] else "undefined";
    var index := if |key| >= 1 then ParseInt([key[0]]) else None;
    var value := if index.Some? && 0 <= index.value < |results| then Some(results[index.value]) else None;
    (assetName, value)
  }

  /** `assetsS3Url` after the second loop has gone over the keys. */
  function S3UrlsAfter(keys: seq<string>, results: seq<string>): map<string, Option<string>>
  {
    if keys == [] then map[]
    else
      var entry := EntryFor(keys[|keys| - 1], results);
      S3UrlsAfter(keys[..|keys| - 1], results)[entry.0 := entry.1]
  }

  /** `Object.keys(assets)`: the names, in the same order as the entries. */
  function Names(assets: seq<Asset>): (names: seq<string>)
    ensures |names| == |assets|
    ensures forall i :: 0 <= i < |assets| ==> names[i] == assets[i].name
  {
    seq(|assets|, i requires 0 <= i < |assets| => assets[i].name)
  }

  /** The first loop of the constructor, over the entries of `assets`. */
  method ConfigureDownloader(s3Url: string, assets: seq<Asset>) returns (d: Downloader)
    ensures d == DownloaderAfter(s3Url, assets)
  {
    var environmentVariables := map[BucketVariable := s3Url];
    var exportedVariables: seq<string> := [];
    var resultJsonPaths: seq<string> := [];
    var commands := [MkdirCommand];
    for i := 0 to |assets|
      invariant Downloader(environmentVariables, exportedVariables, resultJsonPaths, commands)
             == DownloaderAfter(s3Url, assets[..i])
    {
      ghost var before := Downloader(environmentVariables, exportedVariables, resultJsonPaths, commands);
      var upperName := MangleName(assets[i].name);
      var urlVariable := upperName + DownloadUrlSuffix;
      var locationVariable := upperName + S3LocationSuffix;
      environmentVariables := environmentVariables[urlVariable := assets[i].url];
      exportedVariables := exportedVariables + [locationVariable];
      resultJsonPaths := resultJsonPaths + [FilterPath(locationVariable)];
      commands := commands + [ExportCommand(locationVariable, urlVariable)];
      commands := commands + [WgetCommand(urlVariable)];
      commands := commands + [CopyCommand(locationVariable, urlVariable)];
      assert Downloader(environmentVariables, exportedVariables, resultJsonPaths, commands)
          == AddAsset(before, assets[i]);
      assert assets[..i + 1][..i] == assets[..i];
    }
    assert assets[..|assets|] == assets;
    d := Downloader(environmentVariables, exportedVariables, resultJsonPaths, commands);
  }

  /** The second loop of the constructor, over `Object.keys(assets)`. */
  method ReadLocations(keys: seq<string>, results: seq<string>) returns (urls: map<string, Option<string>>)
    ensures urls == S3UrlsAfter(keys, results)
  {
    urls := map[];
    for i := 0 to |keys|
      invariant urls == S3UrlsAfter(keys[..i], results)
    {
      var key := keys[i];
      var index := if |key| >= 1 then [key[0]] else "undefined";
      var assetName := if |key| >= 2 then [key[1]] else "undefined";
      var parsed := if |key| >= 1 then ParseInt(index) else None;
      var value := if parsed.Some? && 0 <= parsed.value < |results| then Some(results[parsed.value]) else None;
      assert (assetName, value) == EntryFor(key, results);
      assert keys[..i + 1][..i] == keys[..i];
      assert keys[..i + 1][i] == key;
      urls := urls[assetName := value];
    }
    assert keys[..|keys|] == keys;
  }

  /**
   * The construct. `s3Url` is what `bucket.s3UrlForObject(path)` returns; `results` are the
   * values of the custom resource's `results` array (one per result path).
   */
  class CodebuildAssetsDownload {
    const downloader: Downloader
    var assetsS3Url: map<string, Option<string>>

    constructor (s3Url: string, assets: seq<Asset>, results: seq<string>)
      ensures downloader == DownloaderAfter(s3Url, assets)
      ensures assetsS3Url == S3UrlsAfter(Names(assets), results)
    {
      var configured := ConfigureDownloader(s3Url, assets);
      var urls := ReadLocations(Names(assets), results);
      downloader := configured;
      assetsS3Url := urls;
    }
  }
}
