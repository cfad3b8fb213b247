/**
 * pkg/dvc/azure.go: the Azure connection-string parser and the
 * configuration built from a container URL and a connection string.
 *
 * A connection string is a ';'-separated list of `key=value` segments.
 * Empty segments are skipped; a non-empty segment whose first '=' is
 * missing or first fails the whole parse; keys and values are trimmed of
 * white space and a later segment overwrites an earlier one with the same key.
 */
module Azure {
  import opened Wrappers
  import opened Strings
  import Url
  import Pool

  datatype AzureError =
    | UrlCannotBeParsed(cause: Url.UrlError)
    | InvalidConnectionSegment(segment: string)

  /** A segment that fails the parse: non-empty, with no '=' or with '=' first. */
  predicate IsBadSegment(pair: string)
  {
    pair != "" && IndexOf(pair, '=') <= 0
  }

  /** A segment that adds an entry. */
  predicate IsEntry(pair: string)
  {
    IndexOf(pair, '=') > 0
  }

  /** The trimmed text before the first '='. */
  function SegmentKey(pair: string): string
    requires IsEntry(pair)
  {
    TrimSpace(pair[..IndexOf(pair, '=')])
  }

  /** The trimmed text after the first '='; later '=' characters belong to it. */
  function SegmentValue(pair: string): string
    requires IsEntry(pair)
  {
    TrimSpace(pair[IndexOf(pair, '=') + 1..])
  }

  /** The loop of Parse over the remaining segments, with the entries found so far. */
  function ParseSegments(pairs: seq<string>, parts: map<string, string>): Result<map<string, string>, AzureError>
    decreases |pairs|
  {
    if pairs == [] then Success(parts)
    else if pairs[0] == "" then ParseSegments(pairs[1..], parts)
    else if !IsEntry(pairs[0]) then Failure(InvalidConnectionSegment(pairs[0]))
    else ParseSegments(pairs[1..], parts[SegmentKey(pairs[0]) := SegmentValue(pairs[0])])
  }

  /** What Parse returns for a connection string. */
  function ParseConnectionString(s: string): Result<map<string, string>, AzureError>
  {
    ParseSegments(Split(s, ';'), map[])
  }

  /** Parse (azure.go:11-29). */
  method Parse(azureconnstring: string) returns (r: Result<map<string, string>, AzureError>)
    ensures r == ParseConnectionString(azureconnstring)
  {
    var parts: map<string, string> := map[];
    var pairs := Split(azureconnstring, ';');
    for i := 0 to |pairs|
      invariant ParseSegments(pairs[i..], parts) == ParseConnectionString(azureconnstring)
    {
      var pair := pairs[i];
      assert pairs[i..][1..] == pairs[i + 1..];
      if pair == "" {
        continue;
      }
      var equalDex := IndexOf(pair, '=');
      if equalDex <= 0 {
        return Failure(InvalidConnectionSegment(pair));
      }
      var value := TrimSpace(pair[equalDex + 1..]);
      var key := TrimSpace(pair[..equalDex]);
      parts := parts[key := value];
    }
    assert pairs[|pairs|..] == [];
    return Success(parts);
  }

  /** The entries after one more segment of a parse that goes on. */
  function Next(pair: string, parts: map<string, string>): map<string, string>
    requires !IsBadSegment(pair)
  {
    if pair == "" then parts else parts[SegmentKey(pair) := SegmentValue(pair)]
  }

  /** One step of the loop over a segment that does not fail it. */
  lemma SegmentsStep(pairs: seq<string>, parts: map<string, string>)
    requires pairs != [] && !IsBadSegment(pairs[0])
    ensures ParseSegments(pairs, parts) == ParseSegments(pairs[1..], Next(pairs[0], parts))
  {
  }

  /** `pairs[i]` is the first bad segment of `pairs`. */
  predicate FirstBad(pairs: seq<string>, i: int)
  {
    0 <= i < |pairs| && IsBadSegment(pairs[i]) && forall j :: 0 <= j < i ==> !IsBadSegment(pairs[j])
  }

  lemma FirstBadCons(pairs: seq<string>, i: int)
    requires pairs != [] && !IsBadSegment(pairs[0]) && FirstBad(pairs[1..], i)
    ensures FirstBad(pairs, i + 1)
  {
    forall j | 0 < j < i + 1
      ensures !IsBadSegment(pairs[j])
    {
      assert pairs[j] == pairs[1..][j - 1];
    }
  }

  lemma SomeBadCons(pairs: seq<string>)
    requires pairs != [] && !IsBadSegment(pairs[0])
    ensures (exists i :: 0 <= i < |pairs| && IsBadSegment(pairs[i]))
        <==> (exists i :: 0 <= i < |pairs[1..]| && IsBadSegment(pairs[1..][i]))
  {
    if exists i :: 0 <= i < |pairs| && IsBadSegment(pairs[i]) {
      var i :| 0 <= i < |pairs| && IsBadSegment(pairs[i]);
      assert pairs[1..][i - 1] == pairs[i];
    }
    if exists i :: 0 <= i < |pairs[1..]| && IsBadSegment(pairs[1..][i]) {
      var i :| 0 <= i < |pairs[1..]| && IsBadSegment(pairs[1..][i]);
      assert pairs[i + 1] == pairs[1..][i];
    }
  }

  /**
   * The parse fails exactly when some segment is bad, and then it reports
   * the first bad segment.
   */
  lemma {:induction false} SegmentsFailure(pairs: seq<string>, parts: map<string, string>)
    ensures ParseSegments(pairs, parts).Failure? <==> exists i :: 0 <= i < |pairs| && IsBadSegment(pairs[i])
    ensures ParseSegments(pairs, parts).Failure? ==>
      exists i :: FirstBad(pairs, i) && ParseSegments(pairs, parts).error == InvalidConnectionSegment(pairs[i])
    decreases |pairs|
  {
    if pairs != [] {
      if IsBadSegment(pairs[0]) {
        assert FirstBad(pairs, 0);
      } else {
        var next := Next(pairs[0], parts);
        SegmentsStep(pairs, parts);
        SegmentsFailure(pairs[1..], next);
        SomeBadCons(pairs);
        if ParseSegments(pairs[1..], next).Failure? {
          var i :| FirstBad(pairs[1..], i) && ParseSegments(pairs[1..], next).error == InvalidConnectionSegment(pairs[1..][i]);
          FirstBadCons(pairs, i);
          assert pairs[i + 1] == pairs[1..][i];
        }
      }
    }
  }

  /** Parsing with entries already found adds them under the entries of the rest. */
  lemma {:induction false} SegmentsFrom(pairs: seq<string>, parts: map<string, string>)
    ensures ParseSegments(pairs, parts) ==
      match ParseSegments(pairs, map[])
      case Failure(e) => Failure(e)
      case Success(m) => Success(parts + m)
    decreases |pairs|
  {
    if pairs == [] {
      assert parts + map[] == parts;
    } else if pairs[0] == "" {
      SegmentsFrom(pairs[1..], parts);
    } else if IsEntry(pairs[0]) {
      var k, v := SegmentKey(pairs[0]), SegmentValue(pairs[0]);
      var rest := pairs[1..];
      assert ParseSegments(pairs, parts) == ParseSegments(rest, parts[k := v]);
      assert ParseSegments(pairs, map[]) == ParseSegments(rest, map[][k := v]);
      SegmentsFrom(rest, parts[k := v]);
      SegmentsFrom(rest, map[][k := v]);
      var r := ParseSegments(rest, map[]);
      if r.Success? {
        MergeUpdate(parts, k, v, r.value);
      }
    }
  }

  lemma MergeUpdate(parts: map<string, string>, k: string, v: string, m: map<string, string>)
    ensures parts[k := v] + m == parts + (map[][k := v] + m)
  {
  }

  /** The loop runs over a concatenation of segment lists as over one list, then the other. */
  lemma {:induction false} SegmentsConcat(x: seq<string>, y: seq<string>, parts: map<string, string>)
    ensures ParseSegments(x + y, parts) ==
      match ParseSegments(x, parts)
      case Failure(e) => Failure(e)
      case Success(m) => ParseSegments(y, m)
    decreases |x|
  {
    if x == [] {
      assert x + y == y;
    } else {
      assert (x + y)[0] == x[0];
      assert (x + y)[1..] == x[1..] + y;
      if x[0] == "" {
        SegmentsConcat(x[1..], y, parts);
      } else if IsEntry(x[0]) {
        SegmentsConcat(x[1..], y, parts[SegmentKey(x[0]) := SegmentValue(x[0])]);
      }
    }
  }

  /**
   * Parsing `a;b` parses `a` and `b` independently and merges the entries,
   * those of `b` winning; a bad segment in `a` is reported before one in `b`.
   */
  lemma ParseConcat(a: string, b: string)
    ensures ParseConnectionString(a + ";" + b) ==
      match ParseConnectionString(a)
      case Failure(e) => Failure(e)
      case Success(ma) =>
        match ParseConnectionString(b)
        case Failure(e) => Failure(e)
        case Success(mb) => Success(ma + mb)
  {
    SplitConcat(a, b, ';');
    SegmentsConcat(Split(a, ';'), Split(b, ';'), map[]);
    match ParseConnectionString(a)
    case Failure(_) =>
    case Success(ma) => SegmentsFrom(Split(b, ';'), ma);
  }

  /** The successful case of ParseConcat. */
  lemma ParseConcatSuccess(a: string, b: string, ma: map<string, string>, mb: map<string, string>)
    requires ParseConnectionString(a) == Success(ma) && ParseConnectionString(b) == Success(mb)
    ensures ParseConnectionString(a + ";" + b) == Success(ma + mb)
  {
    ParseConcat(a, b);
  }

  /** The empty connection string parses to no entries. */
  lemma ParseEmpty()
    ensures ParseConnectionString("") == Success(map[])
  {
  }

  /** A leading ';' adds nothing and fails nothing. */
  lemma ParseLeadingSeparator(s: string)
    ensures ParseConnectionString(";" + s) == ParseConnectionString(s)
  {
    ParseConcat("", s);
    assert "" + ";" + s == ";" + s;
    match ParseConnectionString(s)
    case Failure(_) =>
    case Success(m) => assert map[] + m == m;
  }

  /** A trailing ';' adds nothing and fails nothing. */
  lemma ParseTrailingSeparator(s: string)
    ensures ParseConnectionString(s + ";") == ParseConnectionString(s)
  {
    ParseConcat(s, "");
    assert s + ";" + "" == s + ";";
    match ParseConnectionString(s)
    case Failure(_) =>
    case Success(m) => assert m + map[] == m;
  }

  /** A doubled ';' parses like a single one. */
  lemma ParseDoubledSeparator(a: string, b: string)
    ensures ParseConnectionString(a + ";;" + b) == ParseConnectionString(a + ";" + b)
  {
    assert a + ";;" + b == a + ";" + (";" + b);
    ParseConcat(a, ";" + b);
    ParseLeadingSeparator(b);
    ParseConcat(a, b);
  }

  /**
   * One segment `key=value` gives one entry, the trimmed key to the trimmed
   * value; the value keeps any further '=' characters.
   */
  lemma ParseSingleSegment(key: string, value: string)
    requires key != "" && '=' !in key && ';' !in key && ';' !in value
    ensures ParseConnectionString(key + "=" + value) == Success(map[TrimSpace(key) := TrimSpace(value)])
  {
    var pair := key + "=" + value;
    assert ';' !in pair by {
      assert forall c :: c in pair ==> c in key || c == '=' || c in value;
    }
    assert IndexOf(pair, ';') == -1;
    assert Split(pair, ';') == [pair];
    IndexOfAfterFree(key, value, '=');
    assert IsEntry(pair);
    assert pair[..|key|] == key;
    assert pair[|key| + 1..] == value;
    var none: seq<string> := [];
    assert [pair][1..] == none;
    assert ParseSegments([pair], map[]) == ParseSegments(none, map[][SegmentKey(pair) := SegmentValue(pair)]);
  }

  /** `pairs[i]` is an entry segment with the key `k`. */
  predicate EntryAt(pairs: seq<string>, i: int, k: string)
  {
    0 <= i < |pairs| && IsEntry(pairs[i]) && SegmentKey(pairs[i]) == k
  }

  /** Some entry segment of `pairs` has the key `k`. */
  ghost predicate EntryFor(pairs: seq<string>, k: string)
  {
    exists i :: EntryAt(pairs, i, k)
  }

  lemma EntryForCons(pairs: seq<string>, k: string)
    requires pairs != []
    ensures EntryFor(pairs, k) <==> EntryAt(pairs, 0, k) || EntryFor(pairs[1..], k)
  {
    if EntryFor(pairs, k) && !EntryAt(pairs, 0, k) {
      var i :| EntryAt(pairs, i, k);
      assert pairs[1..][i - 1] == pairs[i];
      assert EntryAt(pairs[1..], i - 1, k);
    }
    if EntryFor(pairs[1..], k) {
      var i :| EntryAt(pairs[1..], i, k);
      assert pairs[i + 1] == pairs[1..][i];
      assert EntryAt(pairs, i + 1, k);
    }
  }

  /** A successful parse has exactly the keys found so far and the keys of its entry segments. */
  lemma {:induction false} SegmentsKeys(pairs: seq<string>, parts: map<string, string>, k: string)
    requires ParseSegments(pairs, parts).Success?
    ensures k in ParseSegments(pairs, parts).value <==> k in parts || EntryFor(pairs, k)
    decreases |pairs|
  {
    if pairs != [] {
      SegmentsStep(pairs, parts);
      SegmentsKeys(pairs[1..], Next(pairs[0], parts), k);
      EntryForCons(pairs, k);
    }
  }

  /** A key that no segment sets keeps the value found so far. */
  lemma {:induction false} SegmentsKeep(pairs: seq<string>, parts: map<string, string>, k: string)
    requires ParseSegments(pairs, parts).Success?
    requires k in parts && !EntryFor(pairs, k)
    ensures k in ParseSegments(pairs, parts).value
    ensures ParseSegments(pairs, parts).value[k] == parts[k]
    decreases |pairs|
  {
    if pairs != [] {
      EntryForCons(pairs, k);
      SegmentsStep(pairs, parts);
      SegmentsKeep(pairs[1..], Next(pairs[0], parts), k);
    }
  }

  /** The value of a key is that of the last entry segment with that key. */
  lemma {:induction false} SegmentsLastWins(pairs: seq<string>, parts: map<string, string>, i: nat)
    requires ParseSegments(pairs, parts).Success?
    requires i < |pairs| && IsEntry(pairs[i]) && !EntryFor(pairs[i + 1..], SegmentKey(pairs[i]))
    ensures SegmentKey(pairs[i]) in ParseSegments(pairs, parts).value
    ensures ParseSegments(pairs, parts).value[SegmentKey(pairs[i])] == SegmentValue(pairs[i])
    decreases |pairs|
  {
    SegmentsStep(pairs, parts);
    if i == 0 {
      SegmentsKeep(pairs[1..], Next(pairs[0], parts), SegmentKey(pairs[0]));
    } else {
      assert pairs[1..][i - 1] == pairs[i];
      assert pairs[1..][i - 1 + 1..] == pairs[i + 1..];
      SegmentsLastWins(pairs[1..], Next(pairs[0], parts), i - 1);
    }
  }

  /** The value of `key` in the parsed entries, or "" (Go's zero value for a missing map key). */
  function Lookup(m: map<string, string>, key: string): string
  {
    if key in m then m[key] else ""
  }

  /** LoadAzureConfig (azure.go:31-50). */
  function LoadAzureConfig(url: string, connectionString: string): (r: Result<Pool.ConnectionConfig, AzureError>)
    ensures Url.Parse(url).Failure? ==> r == Failure(UrlCannotBeParsed(Url.Parse(url).error))
    ensures Url.Parse(url).Success? && ParseConnectionString(connectionString).Failure? ==>
      r == Failure(ParseConnectionString(connectionString).error)
    ensures r.Success? <==> Url.Parse(url).Success? && ParseConnectionString(connectionString).Success?
    ensures r.Success? ==>
      var params := ParseConnectionString(connectionString).value;
      && r.value.configType == Pool.Azure
      && r.value.url == Some(Url.Parse(url).value)
      && r.value.connectionString == connectionString
      && r.value.containerName == Url.Parse(url).value.host
      && r.value.accountName == Lookup(params, "AccountName")
      && r.value.accountKey == Lookup(params, "AccountKey")
      && r.value.remoteId == 0
  {
    match Url.Parse(url)
    case Failure(e) => Failure(UrlCannotBeParsed(e))
    case Success(parsed) =>
      var container := parsed.host;
      match ParseConnectionString(connectionString)
      case Failure(e) => Failure(e)
      case Success(connectionParams) =>
        Success(Pool.ConnectionConfig(
          configType := Pool.Azure,
          url := Some(parsed),
          containerName := container,
          connectionString := connectionString,
          accountName := Lookup(connectionParams, "AccountName"),
          accountKey := Lookup(connectionParams, "AccountKey"),
          remoteId := 0))
  }

  /** The text of one segment. */
  function Segment(key: string, value: string): (pair: string)
    ensures |pair| == |key| + 1 + |value| && pair[|key|] == '='
  {
    key + "=" + value
  }

  /** Two segments `k1=v1;k2=v2` with trimmed keys give their two entries, the second winning on a shared key. */
  lemma ParseTwoSegments(k1: string, v1: string, k2: string, v2: string)
    requires k1 != "" && '=' !in k1 && ';' !in k1 && ';' !in v1 && !IsSpace(k1[0]) && !IsSpace(k1[|k1| - 1])
    requires k2 != "" && '=' !in k2 && ';' !in k2 && ';' !in v2 && !IsSpace(k2[0]) && !IsSpace(k2[|k2| - 1])
    ensures ParseConnectionString(Segment(k1, v1) + ";" + Segment(k2, v2))
         == Success(map[k1 := TrimSpace(v1), k2 := TrimSpace(v2)])
  {
    TrimSpaceOfTrimmed(k1);
    TrimSpaceOfTrimmed(k2);
    var ma, mb := map[k1 := TrimSpace(v1)], map[k2 := TrimSpace(v2)];
    ParseSingleSegment(k1, v1);
    ParseSingleSegment(k2, v2);
    ParseConcatSuccess(Segment(k1, v1), Segment(k2, v2), ma, mb);
    MergePair(k1, TrimSpace(v1), k2, TrimSpace(v2));
  }

  lemma MergePair(k1: string, v1: string, k2: string, v2: string)
    ensures map[k1 := v1] + map[k2 := v2] == map[k1 := v1, k2 := v2]
  {
  }

  /** The two keys that LoadAzureConfig reads can be written as segment keys. */
  lemma AccountKeys()
    ensures "AccountName" != "" && '=' !in "AccountName" && ';' !in "AccountName"
    ensures "AccountKey" != "" && '=' !in "AccountKey" && ';' !in "AccountKey"
    ensures !IsSpace("AccountName"[0]) && !IsSpace("AccountName"[10])
    ensures !IsSpace("AccountKey"[0]) && !IsSpace("AccountKey"[9])
  {
  }

  /** "AccountName=<name>;AccountKey=<key>" yields the trimmed name and key under those keys. */
  lemma ParseAccount(name: string, key: string)
    requires ';' !in name && ';' !in key
    ensures ParseConnectionString(Segment("AccountName", name) + ";" + Segment("AccountKey", key)).Success?
    ensures var m := ParseConnectionString(Segment("AccountName", name) + ";" + Segment("AccountKey", key)).value;
      Lookup(m, "AccountName") == TrimSpace(name) && Lookup(m, "AccountKey") == TrimSpace(key)
  {
    AccountKeys();
    ParseTwoSegments("AccountName", name, "AccountKey", key);
  }

  /**
   * The usual shape of the configuration: a container URL "scheme://container/"
   * and "AccountName=<name>;AccountKey=<key>" give a configuration for that
   * container carrying the trimmed account name and key.
   */
  lemma LoadAccountConfig(scheme: string, container: string, name: string, key: string)
    requires Url.IsScheme(scheme) && Url.IsPlainHost(container)
    requires ';' !in name && ';' !in key
    ensures var r := LoadAzureConfig(scheme + "://" + container + "/", Segment("AccountName", name) + ";" + Segment("AccountKey", key));
      && r.Success?
      && r.value.containerName == container
      && r.value.accountName == TrimSpace(name)
      && r.value.accountKey == TrimSpace(key)
  {
    Url.ParseSchemeHost(scheme, container, "");
    assert scheme + "://" + container + "/" + "" == scheme + "://" + container + "/";
    ParseAccount(name, key);
  }
}
