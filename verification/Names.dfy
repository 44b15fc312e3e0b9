/** Image references and deployment names. */
module Names {

  /** First position of `c`, or -1. */
  function IndexOf(s: string, c: char): (i: int)
    ensures -1 <= i < |s|
    ensures i == -1 <==> c !in s
    ensures i >= 0 ==> s[i] == c && c !in s[..i]
  {
    if s == "" then -1
    else if s[0] == c then 0
    else
      var rest := IndexOf(s[1..], c);
      if rest == -1 then -1 else
        assert s[..rest + 1] == [s[0]] + s[1..][..rest];
        rest + 1
  }

  /** Last position of `c`, or -1. */
  function LastIndexOf(s: string, c: char): (i: int)
    ensures -1 <= i < |s|
    ensures i == -1 <==> c !in s
    ensures i >= 0 ==> s[i] == c && c !in s[i + 1..]
  {
    if s == "" then -1
    else if s[|s| - 1] == c then |s| - 1
    else
      var init := s[..|s| - 1];
      var i := LastIndexOf(init, c);
      assert s == init + [s[|s| - 1]];
      assert i >= 0 ==> s[i + 1..] == init[i + 1..] + [s[|s| - 1]];
      i
  }

  /** The text before the digest marker. */
  function WithoutDigest(uri: string): string {
    var at := IndexOf(uri, '@');
    if at == -1 then uri else uri[..at]
  }

  /** The text after the last '/'. */
  function LastSegment(ref: string): string {
    ref[LastIndexOf(ref, '/') + 1..]
  }

  /** Name and tag of an image reference. */
  function ImageParts(uri: string): (string, string) {
    var ref := WithoutDigest(uri);
    var colon := LastIndexOf(ref, ':');
    if uri == "" then ("", "")
    else if colon == -1 then (LastSegment(ref), "latest")
    else (LastSegment(ref[..colon]), ref[colon + 1..])
  }

  method ParseImage(uri: string) returns (name: string, tag: string)
    ensures (name, tag) == ImageParts(uri)
  {
    hide IndexOf, LastIndexOf;
    if uri == "" {
      return "", "";
    }
    tag := "latest";
    var ref := uri;
    var i := IndexOf(ref, '@');
    if i != -1 {
      ref := ref[..i];
    }
    i := LastIndexOf(ref, ':');
    if i != -1 {
      tag := ref[i + 1..];
      ref := ref[..i];
    }
    i := LastIndexOf(ref, '/');
    if i != -1 {
      name := ref[i + 1..];
    } else {
      name := ref;
    }
  }

  function DeploymentName(configHash: string, image: string): string {
    var (name, tag) := ImageParts(image);
    if name != "" then "depl-" + name + "-" + tag + "-" + configHash
    else "depl-" + configHash
  }

  /** Whether a deployment name is `prefix`, or `prefix` followed by Baseten's ".timestamp". */
  predicate MatchesPrefix(name: string, prefix: string) {
    name == prefix || prefix + "." <= name
  }

  /* ---- locating a character whose position is known ---- */

  lemma FirstAt(a: string, c: char, b: string)
    requires c !in a
    ensures IndexOf(a + [c] + b, c) == |a|
  {
    var s := a + [c] + b;
    var i := IndexOf(s, c);
    assert s[..|a|] == a && s[|a|] == c;
    assert forall k :: |a| < k <= |s| ==> s[..k][|a|] == c;
  }

  lemma LastAt(a: string, c: char, b: string)
    requires c !in b
    ensures LastIndexOf(a + [c] + b, c) == |a|
  {
    var s := a + [c] + b;
    var i := LastIndexOf(s, c);
    assert s[|a| + 1..] == b && s[|a|] == c;
    forall k | 1 <= k <= |a| ensures c in s[k..] {
      assert s[k..][|a| - k] == c;
    }
  }

  lemma SegmentAfter(prefix: string, name: string)
    requires '/' !in name
    ensures LastSegment(prefix + "/" + name) == name
    ensures LastSegment(name) == name
  {
    LastAt(prefix, '/', name);
    assert prefix + "/" + name == prefix + ['/'] + name;
    assert (prefix + ['/'] + name)[|prefix| + 1..] == name;
  }

  lemma DigestDropped(ref: string, digest: string)
    requires '@' !in ref
    ensures WithoutDigest(ref) == ref
    ensures WithoutDigest(ref + "@" + digest) == ref
  {
    FirstAt(ref, '@', digest);
    assert ref + "@" + digest == ref + ['@'] + digest;
    assert (ref + ['@'] + digest)[..|ref|] == ref;
  }

  /** `path` is a bare image name, or any registry path (ports allowed) ending in it. */
  ghost predicate EndsInName(path: string, name: string) {
    path == name || exists prefix :: path == prefix + "/" + name
  }

  /** A tagged reference gives back its name and tag, with or without a digest and whatever
      the registry path before the name looks like. */
  lemma TaggedImageRecovered(path: string, name: string, tag: string, digest: string)
    requires EndsInName(path, name) && '@' !in path && '/' !in name
    requires '@' !in tag && ':' !in tag
    ensures ImageParts(path + ":" + tag) == (name, tag)
    ensures ImageParts(path + ":" + tag + "@" + digest) == (name, tag)
  {
    var ref := path + ":" + tag;
    DigestDropped(ref, digest);
    LastAt(path, ':', tag);
    assert ref == path + [':'] + tag;
    assert ref[..|path|] == path && ref[|path| + 1..] == tag;
    if path != name {
      var prefix :| path == prefix + "/" + name;
      SegmentAfter(prefix, name);
    } else {
      SegmentAfter("", name);
    }
  }

  /** The name of a deployment: of a tagged image its name and tag and the hash of the configuration,
      and of none the hash alone. */
  lemma DeploymentNameTells(path: string, name: string, tag: string, digest: string, configHash: string)
    requires EndsInName(path, name) && '@' !in path && '/' !in name && name != ""
    requires '@' !in tag && ':' !in tag
    ensures DeploymentName(configHash, path + ":" + tag) == "depl-" + name + "-" + tag + "-" + configHash
    ensures DeploymentName(configHash, path + ":" + tag + "@" + digest) == "depl-" + name + "-" + tag + "-" + configHash
    ensures DeploymentName(configHash, "") == "depl-" + configHash
  {
    TaggedImageRecovered(path, name, tag, digest);
    hide ImageParts;
    assert ImageParts("") == ("", "") by { EmptyImage(); }
  }

  lemma EmptyImage()
    ensures ImageParts("") == ("", "")
  {
  }

  /** An untagged reference, bare or under a registry path, is read as name and "latest" exactly
      when it is not empty and has no ':'; with a port in it, part of the path is taken for the tag. */
  lemma UntaggedImageRecovered(path: string, name: string, digest: string)
    requires EndsInName(path, name) && '@' !in path && '/' !in name && ':' !in name
    ensures ImageParts(path) == (name, "latest") <==> path != "" && ':' !in path
    ensures path != "" ==> ImageParts(path + "@" + digest) == ImageParts(path)
  {
    DigestDropped(path, digest);
    if path == name {
      SegmentAfter("", name);
    } else {
      var prefix :| path == prefix + "/" + name;
      if ':' in prefix {
        PathEndsUpInTag(prefix, name);
      } else {
        SegmentAfter(prefix, name);
      }
    }
  }

  /** Everything after the last ':' is the tag. */
  lemma TagFollowsColon(before: string, tag: string)
    requires '@' !in before && '@' !in tag && ':' !in tag
    ensures ImageParts(before + ":" + tag).1 == tag
  {
    DigestDropped(before + ":" + tag, "");
    LastAt(before, ':', tag);
    assert before + ":" + tag == before + [':'] + tag;
    assert (before + [':'] + tag)[|before| + 1..] == tag;
  }

  lemma SplitAt(s: string, i: nat, rest: string)
    requires i < |s|
    ensures s + rest == s[..i] + [s[i]] + (s[i + 1..] + rest)
  {
  }

  lemma NotInPath(a: string, b: string, c: char)
    requires c !in a && c !in b && c != '/'
    ensures c !in a + ("/" + b)
  {
  }

  lemma PathEndsUpInTag(prefix: string, name: string)
    requires ':' in prefix && '@' !in prefix && '@' !in name && ':' !in name
    ensures '/' in ImageParts(prefix + "/" + name).1
    ensures ImageParts(prefix + "/" + name).1 != "latest"
  {
    var colon := LastIndexOf(prefix, ':');
    hide IndexOf, LastIndexOf, ImageParts;
    var before, after := prefix[..colon], prefix[colon + 1..];
    var tag := after + ("/" + name);
    NotInPath(after, name, '@');
    NotInPath(after, name, ':');
    TagFollowsColon(before, tag);
    SplitAt(prefix, colon, "/" + name);
    assert prefix + "/" + name == prefix + ("/" + name);
    assert before + ":" + tag == before + [prefix[colon]] + tag;
    assert tag[|after|] == '/';
  }

  /** What the failing side of UntaggedImageRecovered looks like: "host:5000/vllm" is read as
      image "host" with tag "5000/vllm". */
  lemma PortTakenForTag(host: string, port: string, name: string)
    requires '@' !in host && '/' !in host && ':' !in host
    requires '@' !in port && ':' !in port && '@' !in name && ':' !in name
    ensures ImageParts(host + ":" + (port + "/" + name)) == (host, port + "/" + name)
  {
    var path := port + "/" + name;
    assert forall c | c in path :: c in port || c == '/' || c in name;
    TaggedImageRecovered(host, host, path, "");
  }

  /** Two configurations with different hashes of one length never share a deployment name,
      whatever their images. */
  lemma NamesSeparateHashes(h1: string, image1: string, h2: string, image2: string)
    requires |h1| == |h2| && DeploymentName(h1, image1) == DeploymentName(h2, image2)
    ensures h1 == h2
  {
    var n1, n2 := DeploymentName(h1, image1), DeploymentName(h2, image2);
    assert n1[|n1| - |h1|..] == h1;
    assert n2[|n2| - |h2|..] == h2;
  }

  /* ---- prefix matching is a partial order whose upper sets are chains ---- */

  lemma MatchIsPartialOrder(a: string, b: string, c: string)
    ensures MatchesPrefix(a, a)
    ensures MatchesPrefix(a, b) && MatchesPrefix(b, a) ==> a == b
    ensures MatchesPrefix(a, b) && MatchesPrefix(b, c) ==> MatchesPrefix(a, c)
  {
    if MatchesPrefix(a, b) && MatchesPrefix(b, c) && a != b && b != c {
      assert forall k :: 0 <= k < |c| + 1 ==> (c + ".")[k] == b[k] && (b + ".")[k] == a[k] && (b + ".")[k] == b[k];
    }
  }

  /** Of two sources that both match one deployment, one is a variant of the other. */
  lemma SourcesOfOneNameFormAChain(name: string, p: string, q: string)
    requires MatchesPrefix(name, p) && MatchesPrefix(name, q)
    ensures MatchesPrefix(p, q) || MatchesPrefix(q, p)
  {
    PrefixAsSlice(name, p);
    PrefixAsSlice(name, q);
    if |p| < |q| {
      PrefixOfLonger(name, p, q);
    } else if |q| < |p| {
      PrefixOfLonger(name, q, p);
    }
  }

  lemma PrefixAsSlice(name: string, p: string)
    requires MatchesPrefix(name, p)
    ensures |p| <= |name| && p == name[..|p|]
    ensures |p| < |name| ==> name[|p|] == '.'
  {
    assert forall k :: 0 <= k < |p| ==> (p + ".")[k] == p[k];
  }

  lemma PrefixOfLonger(name: string, p: string, q: string)
    requires MatchesPrefix(name, p) && MatchesPrefix(name, q) && |p| < |q|
    ensures MatchesPrefix(q, p)
  {
    PrefixAsSlice(name, p);
    PrefixAsSlice(name, q);
    assert forall k :: 0 <= k < |p| + 1 ==> (p + ".")[k] == name[k] == q[k];
  }
}
