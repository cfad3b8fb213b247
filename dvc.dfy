/**
 * pkg/dvc/dvc.go: what the gateway reads from a DVC config file.
 *
 * The file is an ini file loaded with `Insensitive: true`, so the ini
 * library keeps every section name and key lower-cased and lower-cases the
 * names it is asked for. A parsed file is modelled as the list of its
 * sections, in file order, each with its name as stored and its keys.
 * A remote named `name` lives in the section `'remote "name"'` (the single
 * quotes are part of the name) and its storage URL under the key `url`.
 */
module Dvc {
  import opened Wrappers
  import opened Strings
  import Url
  import Pool

  datatype Section = Section(name: string, keys: map<string, string>)

  /** DVCConfigParser: the sections of the loaded file. */
  datatype DvcConfigParser = DvcConfigParser(sections: seq<Section>)

  datatype DvcError =
    | SectionNotFound(section: string)
    | KeyNotFound(section: string, key: string)
    | UrlCannotBeParsed(cause: Url.UrlError)
    | InvalidScheme

  /** A string that lower-casing leaves alone, as the ini library stores names. */
  predicate IsLower(s: string)
  {
    ToLower(s) == s
  }

  /** A string without ASCII capitals is lower-case. */
  lemma NoCapitalsIsLower(s: string)
    requires forall i :: 0 <= i < |s| ==> !('A' <= s[i] <= 'Z')
    ensures IsLower(s)
  {
  }

  /** Lower-casing twice is lower-casing once. */
  lemma ToLowerIdempotent(s: string)
    ensures IsLower(ToLower(s))
  {
  }

  /** The first section with the given stored name. */
  function FindSection(sections: seq<Section>, name: string): (r: Option<Section>)
    ensures r.None? <==> forall i :: 0 <= i < |sections| ==> sections[i].name != name
    ensures r.Some? ==> r.value.name == name
    ensures r.Some? ==> exists i :: (0 <= i < |sections| && sections[i] == r.value
      && forall j :: 0 <= j < i ==> sections[j].name != name)
  {
    if |sections| == 0 then None
    else if sections[0].name == name then Some(sections[0])
    else
      var r := FindSection(sections[1..], name);
      assert forall i :: 1 <= i < |sections| ==> sections[i] == sections[1..][i - 1];
      r
  }

  /** ini.File.GetSection under `Insensitive`: the section whose name is the lower-cased query. */
  function GetSection(config: DvcConfigParser, name: string): Result<Section, DvcError>
  {
    match FindSection(config.sections, ToLower(name))
    case None => Failure(SectionNotFound(ToLower(name)))
    case Some(section) => Success(section)
  }

  /** ini.Section.GetKey under `Insensitive`: the value of the lower-cased key. */
  function GetKey(section: Section, key: string): Result<string, DvcError>
  {
    if ToLower(key) in section.keys then Success(section.keys[ToLower(key)])
    else Failure(KeyNotFound(section.name, ToLower(key)))
  }

  /** The name of the section that holds remote `remote`. */
  function RemoteSectionName(remote: string): string
  {
    "'remote \"" + remote + "\"'"
  }

  /** GetRemote (dvc.go:44-47). */
  function GetRemote(config: DvcConfigParser, remote: string): (r: Result<Section, DvcError>)
    ensures r.Success? <==> exists i :: (0 <= i < |config.sections|
      && config.sections[i].name == ToLower(RemoteSectionName(remote)))
    ensures r.Success? ==> r.value in config.sections && r.value.name == ToLower(RemoteSectionName(remote))
  {
    GetSection(config, RemoteSectionName(remote))
  }

  /** GetRemoteType(URL) (dvc.go:61-74): the kind of storage a URL names, or Unknown and why. */
  function GetRemoteType(url: string): (r: (Pool.ConfigType, Option<DvcError>))
    ensures r.1.None? <==> r.0 != Pool.Unknown
    ensures r.0 == Pool.Azure <==> Url.Parse(url).Success? && Url.Parse(url).value.scheme == "azure"
    ensures r.0 == Pool.Http <==> Url.Parse(url).Success? && Url.Parse(url).value.scheme == "http"
    ensures Url.Parse(url).Failure? ==> r.1 == Some(UrlCannotBeParsed(Url.Parse(url).error))
    ensures Url.Parse(url).Success? && r.0 == Pool.Unknown ==> r.1 == Some(InvalidScheme)
  {
    match Url.Parse(url)
    case Failure(e) => (Pool.Unknown, Some(UrlCannotBeParsed(e)))
    case Success(parsed) =>
      if parsed.scheme == "azure" then (Pool.Azure, None)
      else if parsed.scheme == "http" then (Pool.Http, None)
      else (Pool.Unknown, Some(InvalidScheme))
  }

  /**
   * A URL "scheme://host/path" is classified by its scheme alone, whatever its
   * case: "AZURE://c/" is an Azure remote and "https://c/" is not a remote at all.
   */
  lemma RemoteTypeOfScheme(scheme: string, host: string, path: string)
    requires Url.IsScheme(scheme) && Url.IsPlainHost(host)
    requires forall c :: c in path ==> !Url.IsControl(c) && c != '?' && c != '#' && c != '%'
    ensures GetRemoteType(scheme + "://" + host + "/" + path) ==
      if ToLower(scheme) == "azure" then (Pool.Azure, None)
      else if ToLower(scheme) == "http" then (Pool.Http, None)
      else (Pool.Unknown, Some(InvalidScheme))
  {
    Url.ParseSchemeHost(scheme, host, path);
  }

  /** GetRemoteType(remote) (dvc.go:49-59): the kind of storage of a configured remote. */
  function GetRemoteTypeOfRemote(config: DvcConfigParser, remote: string): (r: (Pool.ConfigType, Option<DvcError>))
    ensures GetRemote(config, remote).Failure? ==> r == (Pool.Unknown, Some(GetRemote(config, remote).error))
    ensures GetRemote(config, remote).Success? && GetKey(GetRemote(config, remote).value, "url").Failure? ==>
      r == (Pool.Unknown, Some(GetKey(GetRemote(config, remote).value, "url").error))
    ensures GetRemote(config, remote).Success? && GetKey(GetRemote(config, remote).value, "url").Success? ==>
      r == GetRemoteType(GetKey(GetRemote(config, remote).value, "url").value)
  {
    match GetRemote(config, remote)
    case Failure(e) => (Pool.Unknown, Some(e))
    case Success(section) =>
      match GetKey(section, "url")
      case Failure(e) => (Pool.Unknown, Some(e))
      case Success(urlValue) => GetRemoteType(urlValue)
  }

  /** A remote's type depends on its name only up to case. */
  lemma RemoteTypeIgnoresCase(config: DvcConfigParser, remote: string)
    ensures GetRemoteTypeOfRemote(config, remote) == GetRemoteTypeOfRemote(config, ToLower(remote))
  {
    var p := "'remote \"";
    var q := "\"'";
    ToLowerConcat(p, remote);
    ToLowerConcat(p + remote, q);
    ToLowerConcat(p, ToLower(remote));
    ToLowerConcat(p + ToLower(remote), q);
    ToLowerIdempotent(remote);
  }

  /** ini.File.SectionStrings: the section names in file order. */
  function SectionStrings(config: DvcConfigParser): (names: seq<string>)
    ensures |names| == |config.sections|
    ensures forall i :: 0 <= i < |names| ==> names[i] == config.sections[i].name
  {
    seq(|config.sections|, i requires 0 <= i < |config.sections| => config.sections[i].name)
  }

  /** The section names that ListRemotes takes for remotes. */
  predicate IsRemoteSection(name: string)
  {
    Contains(name, "remote")
  }

  /** Every remote section name has a '"' in it, so that its piece [1] exists. */
  predicate RemoteSectionsQuoted(names: seq<string>)
  {
    forall i :: 0 <= i < |names| && IsRemoteSection(names[i]) ==> '"' in names[i]
  }

  /** The remote named by a section name: the text between its first and second '"'. */
  function RemoteOf(name: string): string
    requires '"' in name
  {
    SplitAtFirst(name, '"');
    Split(name, '"')[1]
  }

  /** The remotes of the first `n` section names, in order. */
  function RemotesUpTo(names: seq<string>, n: nat): (remotes: seq<string>)
    requires n <= |names| && RemoteSectionsQuoted(names)
    ensures |remotes| <= n
  {
    if n == 0 then []
    else RemotesUpTo(names, n - 1) + (if IsRemoteSection(names[n - 1]) then [RemoteOf(names[n - 1])] else [])
  }

  /** What ListRemotes returns for a list of section names. */
  function RemoteNames(names: seq<string>): seq<string>
    requires RemoteSectionsQuoted(names)
  {
    RemotesUpTo(names, |names|)
  }

  /** ListRemotes (dvc.go:34-42). */
  method ListRemotes(config: DvcConfigParser) returns (remotes: seq<string>)
    requires RemoteSectionsQuoted(SectionStrings(config))
    ensures remotes == RemoteNames(SectionStrings(config))
    ensures |remotes| <= |config.sections|
  {
    var names := SectionStrings(config);
    remotes := [];
    for k := 0 to |names|
      invariant remotes == RemotesUpTo(names, k)
    {
      var i := names[k];
      if Contains(i, "remote") {
        SplitAtFirst(i, '"');
        remotes := remotes + [Split(i, '"')[1]];
      }
    }
  }

  lemma QuotedPrefix(names: seq<string>, k: nat)
    requires k <= |names| && RemoteSectionsQuoted(names)
    ensures RemoteSectionsQuoted(names[..k])
  {
    assert forall i :: 0 <= i < k ==> names[..k][i] == names[i];
  }

  lemma QuotedConcat(a: seq<string>, b: seq<string>)
    requires RemoteSectionsQuoted(a) && RemoteSectionsQuoted(b)
    ensures RemoteSectionsQuoted(a + b)
  {
    forall i | 0 <= i < |a + b| && IsRemoteSection((a + b)[i])
      ensures '"' in (a + b)[i]
    {
      if i >= |a| {
        assert (a + b)[i] == b[i - |a|];
      }
    }
  }

  /** The remotes of a prefix are those of the prefix as a list of its own. */
  lemma {:induction false} RemotesUpToPrefix(names: seq<string>, k: nat)
    requires k <= |names| && RemoteSectionsQuoted(names)
    ensures RemoteSectionsQuoted(names[..k])
    ensures RemotesUpTo(names, k) == RemoteNames(names[..k])
  {
    QuotedPrefix(names, k);
    RemotesUpToAgree(names, names[..k], k);
  }

  /** Two lists that agree on their first `n` names agree on the remotes among them. */
  lemma {:induction false} RemotesUpToAgree(x: seq<string>, y: seq<string>, n: nat)
    requires n <= |x| && n <= |y| && RemoteSectionsQuoted(x) && RemoteSectionsQuoted(y)
    requires forall i :: 0 <= i < n ==> x[i] == y[i]
    ensures RemotesUpTo(x, n) == RemotesUpTo(y, n)
  {
    if n > 0 {
      RemotesUpToAgree(x, y, n - 1);
    }
  }

  /**
   * ListRemotes keeps the section order: the remotes of two lists of
   * sections one after the other are those of the first, then those of the second.
   */
  lemma {:induction false} RemoteNamesConcat(a: seq<string>, b: seq<string>)
    requires RemoteSectionsQuoted(a) && RemoteSectionsQuoted(b)
    ensures RemoteSectionsQuoted(a + b)
    ensures RemoteNames(a + b) == RemoteNames(a) + RemoteNames(b)
    decreases |b|
  {
    QuotedConcat(a, b);
    if |b| == 0 {
      assert a + b == a;
    } else {
      var b' := b[..|b| - 1];
      QuotedPrefix(b, |b| - 1);
      RemoteNamesConcat(a, b');
      assert (a + b)[..|a + b| - 1] == a + b';
      RemotesUpToPrefix(a + b, |a + b| - 1);
      RemotesUpToPrefix(b, |b| - 1);
      assert (a + b)[|a + b| - 1] == b[|b| - 1];
    }
  }

  /** A single section contributes its remote exactly when its name mentions "remote". */
  lemma RemoteNamesSingle(name: string)
    requires IsRemoteSection(name) ==> '"' in name
    ensures RemoteSectionsQuoted([name])
    ensures RemoteNames([name]) == if IsRemoteSection(name) then [RemoteOf(name)] else []
  {
  }

  /** The section name of every remote mentions "remote". */
  lemma RemoteSectionIsRemote(remote: string)
    ensures IsRemoteSection(RemoteSectionName(remote))
  {
    var tail := " \"" + remote + "\"'";
    assert RemoteSectionName(remote) == "'" + ("remote" + tail);
    assert Contains("remote" + tail, "remote");
    ContainsSuffix("'", "remote" + tail, "remote");
  }

  /** The piece between the first two separators of `p c x c q`, for `p` and `x` free of `c`. */
  lemma SecondPiece(p: string, x: string, q: string, c: char)
    requires c !in p && c !in x
    ensures Split(p + [c] + x + [c] + q, c)[1] == x
  {
    var rest := x + [c] + q;
    SplitAfterFree(x, q, c);
    assert p + [c] + x + [c] + q == p + [c] + rest;
    SplitAfterFree(p, rest, c);
  }

  /** The section of a remote named without '"' mentions "remote" and gives that name back. */
  lemma RemoteOfSectionName(remote: string)
    requires '"' !in remote
    ensures IsRemoteSection(RemoteSectionName(remote))
    ensures '"' in RemoteSectionName(remote)
    ensures RemoteOf(RemoteSectionName(remote)) == remote
  {
    RemoteSectionIsRemote(remote);
    var p, q := "'remote ", "'";
    assert RemoteSectionName(remote) == p + ['"'] + remote + ['"'] + q;
    assert '"' !in p;
    SecondPiece(p, remote, q, '"');
  }

  /**
   * A remote stored in the file under its lower-case name is both listed by
   * ListRemotes and found by GetRemote.
   */
  lemma ListedRemoteIsFound(config: DvcConfigParser, remote: string, k: nat)
    requires '"' !in remote && IsLower(remote)
    requires k < |config.sections| && config.sections[k].name == RemoteSectionName(remote)
    requires RemoteSectionsQuoted(SectionStrings(config))
    ensures remote in RemoteNames(SectionStrings(config))
    ensures GetRemote(config, remote).Success?
  {
    var names := SectionStrings(config);
    RemoteOfSectionName(remote);
    RemotesUpToPrefix(names, k);
    RemotesUpToPrefix(names, k + 1);
    assert RemotesUpTo(names, k + 1) == RemotesUpTo(names, k) + [remote];
    RemotesUpToPrefix(names, |names|);
    assert names == names[..k + 1] + names[k + 1..];
    QuotedPrefix(names, k + 1);
    SuffixQuoted(names, k + 1);
    RemoteNamesConcat(names[..k + 1], names[k + 1..]);
    SectionNameIsLower(remote);
  }

  lemma SuffixQuoted(names: seq<string>, k: nat)
    requires k <= |names| && RemoteSectionsQuoted(names)
    ensures RemoteSectionsQuoted(names[k..])
  {
    assert forall i :: 0 <= i < |names| - k ==> names[k..][i] == names[k + i];
  }

  /** The section name of a lower-case remote is lower-case. */
  lemma SectionNameIsLower(remote: string)
    requires IsLower(remote)
    ensures ToLower(RemoteSectionName(remote)) == RemoteSectionName(remote)
  {
    var p := "'remote \"";
    var q := "\"'";
    NoCapitalsIsLower(p);
    NoCapitalsIsLower(q);
    LowerConcat(p, remote, q);
  }

  lemma LowerConcat(p: string, x: string, q: string)
    requires IsLower(p) && IsLower(x) && IsLower(q)
    ensures IsLower(p + x + q)
  {
    ToLowerConcat(p, x);
    ToLowerConcat(p + x, q);
  }
}
