/**
 * What the asset-download construct promises: one exported variable, one result path and three
 * commands per asset, one URL variable per asset next to the bucket variable; and what its
 * read-back loop actually produces, against what it evidently means to produce.
 */
module AssetsDownloadProperties {
  import opened Wrappers
  import opened Numbers
  import opened AssetsDownload

  // ---------------------------------------------------------------------------------------------
  // Names

  /** Mangling an already mangled name changes nothing. */
  lemma MangleNameIdempotent(name: string)
    ensures MangleName(MangleName(name)) == MangleName(name)
  {
    var once := MangleName(name);
    var twice := MangleName(once);
    forall i | 0 <= i < |name|
      ensures twice[i] == once[i]
    {
      assert once[i] != '-' && !('a' <= once[i] <= 'z');
    }
  }

  /** Names that differ only in case or in '-' against '_' share their variables. */
  lemma MangledNamesCollide()
    ensures "web-app" != "WEB_APP"
    ensures UrlVariable("web-app") == UrlVariable("WEB_APP")
    ensures LocationVariable("web-app") == LocationVariable("WEB_APP")
  {
    assert MangleName("web-app") == MangleName("WEB_APP");
  }

  /** The bucket variable is never one of the URL variables. */
  lemma BucketIsNoUrlVariable(name: string)
    ensures UrlVariable(name) != BucketVariable
  {
    assert |UrlVariable(name)| == |name| + |DownloadUrlSuffix|;
  }

  // ---------------------------------------------------------------------------------------------
  // The configuration

  /**
   * One exported location variable, one result path reading it back and three commands per
   * asset, in the order of the assets, after the initial `mkdir`.
   */
  lemma {:induction false} DownloaderShape(s3Url: string, assets: seq<Asset>)
    ensures var d := DownloaderAfter(s3Url, assets);
      && |d.exportedVariables| == |assets|
      && |d.resultJsonPaths| == |assets|
      && |d.commands| == 1 + 3 * |assets|
      && d.commands[0] == MkdirCommand
      && (forall i :: 0 <= i < |assets| ==>
            && d.exportedVariables[i] == LocationVariable(assets[i].name)
            && d.resultJsonPaths[i] == FilterPath(LocationVariable(assets[i].name)))
      && (forall i :: 0 <= i < |assets| ==>
            && d.commands[1 + 3 * i] == ExportCommand(LocationVariable(assets[i].name), UrlVariable(assets[i].name))
            && d.commands[2 + 3 * i] == WgetCommand(UrlVariable(assets[i].name))
            && d.commands[3 + 3 * i] == CopyCommand(LocationVariable(assets[i].name), UrlVariable(assets[i].name)))
  {
    if assets != [] {
      var n := |assets| - 1;
      var prefix := assets[..n];
      DownloaderShape(s3Url, prefix);
      var before := DownloaderAfter(s3Url, prefix);
      var d := DownloaderAfter(s3Url, assets);
      assert d == AddAsset(before, assets[n]);
      forall i | 0 <= i < |assets|
        ensures d.exportedVariables[i] == LocationVariable(assets[i].name)
        ensures d.resultJsonPaths[i] == FilterPath(LocationVariable(assets[i].name))
        ensures d.commands[1 + 3 * i] == ExportCommand(LocationVariable(assets[i].name), UrlVariable(assets[i].name))
        ensures d.commands[2 + 3 * i] == WgetCommand(UrlVariable(assets[i].name))
        ensures d.commands[3 + 3 * i] == CopyCommand(LocationVariable(assets[i].name), UrlVariable(assets[i].name))
      {
        if i < n {
          assert prefix[i] == assets[i];
        }
      }
    }
  }

  /** The URL variables of the assets. */
  function UrlVariables(assets: seq<Asset>): set<string>
  {
    set i | 0 <= i < |assets| :: UrlVariable(assets[i].name)
  }

  lemma UrlVariablesSnoc(assets: seq<Asset>)
    requires assets != []
    ensures UrlVariables(assets)
         == UrlVariables(assets[..|assets| - 1]) + {UrlVariable(assets[|assets| - 1].name)}
  {
    var n := |assets| - 1;
    var prefix := assets[..n];
    forall k | k in UrlVariables(assets)
      ensures k in UrlVariables(prefix) + {UrlVariable(assets[n].name)}
    {
      var i :| 0 <= i < |assets| && k == UrlVariable(assets[i].name);
      if i < n {
        assert prefix[i] == assets[i];
      }
    }
    forall k | k in UrlVariables(prefix)
      ensures k in UrlVariables(assets)
    {
      var i :| 0 <= i < |prefix| && k == UrlVariable(prefix[i].name);
      assert assets[i] == prefix[i];
    }
  }

  /**
   * The environment holds exactly the bucket variable, bound to the bucket URL, and one URL
   * variable per asset.
   */
  lemma {:induction false} DownloaderEnvironment(s3Url: string, assets: seq<Asset>)
    ensures var env := DownloaderAfter(s3Url, assets).environmentVariables;
      && env.Keys == {BucketVariable} + UrlVariables(assets)
      && BucketVariable in env && env[BucketVariable] == s3Url
  {
    if assets != [] {
      var n := |assets| - 1;
      DownloaderEnvironment(s3Url, assets[..n]);
      BucketIsNoUrlVariable(assets[n].name);
      UrlVariablesSnoc(assets);
    }
  }

  /**
   * An asset's URL variable holds that asset's URL unless a later asset mangles to the same
   * variable (the later one wins).
   */
  lemma {:induction false} DownloaderUrl(s3Url: string, assets: seq<Asset>, i: nat)
    requires i < |assets|
    requires forall j :: i < j < |assets| ==> UrlVariable(assets[j].name) != UrlVariable(assets[i].name)
    ensures var env := DownloaderAfter(s3Url, assets).environmentVariables;
      UrlVariable(assets[i].name) in env && env[UrlVariable(assets[i].name)] == assets[i].url
  {
    var n := |assets| - 1;
    var prefix := assets[..n];
    if i < n {
      forall j | i < j < |prefix|
        ensures UrlVariable(prefix[j].name) != UrlVariable(prefix[i].name)
      {
        assert prefix[j] == assets[j];
      }
      DownloaderUrl(s3Url, prefix, i);
      assert prefix[i] == assets[i];
    }
  }

  // ---------------------------------------------------------------------------------------------
  // Reading the locations back, as written

  /** Every key the read-back loop writes is one character long, or "undefined". */
  lemma {:induction false} S3UrlKeys(keys: seq<string>, results: seq<string>)
    ensures forall k :: k in S3UrlsAfter(keys, results) ==> |k| == 1 || k == "undefined"
  {
    if keys != [] {
      S3UrlKeys(keys[..|keys| - 1], results);
    }
  }

  /** So no asset name of two characters or more is ever a key, "undefined" apart. */
  lemma S3UrlsMissLongNames(assets: seq<Asset>, results: seq<string>, name: string)
    requires |name| >= 2 && name != "undefined"
    ensures name !in S3UrlsAfter(Names(assets), results)
  {
    S3UrlKeys(Names(assets), results);
  }

  /** A key's second character gets the result indexed by its first character, when it is a digit. */
  lemma EntryForDigits(key: string, results: seq<string>)
    requires |key| >= 2
    ensures EntryFor(key, results).0 == [key[1]]
    ensures EntryFor(key, results).1 ==
      if '0' <= key[0] <= '9' && DigitValue(key[0]) < |results| then Some(results[DigitValue(key[0])]) else None
  {
    ParseSingleChar(key[0]);
  }

  /** The asset "web-app" ends up as `assetsS3Url["e"]`, holding undefined. */
  lemma ReadBackCounterexample(url: string, location: string)
    ensures S3UrlsAfter(Names([Asset("web-app", url)]), [location]) == map["e" := None]
  {
    var keys := Names([Asset("web-app", url)]);
    assert keys == ["web-app"];
    ParseSingleChar('w');
    assert EntryFor("web-app", [location]) == ("e", None);
    assert keys[..0] == [];
  }

  // ---------------------------------------------------------------------------------------------
  // Reading the locations back, as intended

  /**
   * What the read-back loop evidently means: each asset name, in order, gets the result at its
   * own position, which is the value of its own location variable.
   */
  function IntendedS3Urls(names: seq<string>, results: seq<string>): map<string, Option<string>>
  {
    if names == [] then map[]
    else
      var n := |names| - 1;
      IntendedS3Urls(names[..n], results)[names[n] := if n < |results| then Some(results[n]) else None]
  }

  /** The intended map has exactly the asset names as keys. */
  lemma {:induction false} IntendedS3UrlsKeys(names: seq<string>, results: seq<string>)
    ensures forall k :: k in IntendedS3Urls(names, results) <==> k in names
  {
    if names != [] {
      var n := |names| - 1;
      var prefix := names[..n];
      IntendedS3UrlsKeys(prefix, results);
      assert names == prefix + [names[n]];
    }
  }

  /**
   * With distinct names (the keys of an object are), each asset name maps to the result at its
   * own position.
   */
  lemma {:induction false} IntendedS3UrlsLookup(names: seq<string>, results: seq<string>, i: nat)
    requires forall p, q :: 0 <= p < q < |names| ==> names[p] != names[q]
    requires i < |names|
    ensures var m := IntendedS3Urls(names, results);
      names[i] in m && m[names[i]] == if i < |results| then Some(results[i]) else None
  {
    var n := |names| - 1;
    var prefix := names[..n];
    if i < n {
      assert prefix[i] == names[i];
      IntendedS3UrlsLookup(prefix, results, i);
    }
  }

  /**
   * Tied to the configuration: with distinct names, the intended entry of every asset is the
   * result read through that asset's own result path.
   */
  lemma IntendedReadsOwnPath(s3Url: string, assets: seq<Asset>, results: seq<string>, i: nat)
    requires forall p, q :: 0 <= p < q < |assets| ==> assets[p].name != assets[q].name
    requires |results| == |assets| && i < |assets|
    ensures var paths := DownloaderAfter(s3Url, assets).resultJsonPaths;
      i < |paths| && paths[i] == FilterPath(LocationVariable(assets[i].name))
    ensures var m := IntendedS3Urls(Names(assets), results);
      assets[i].name in m && m[assets[i].name] == Some(results[i])
  {
    DownloaderShape(s3Url, assets);
    IntendedS3UrlsLookup(Names(assets), results, i);
  }
}
