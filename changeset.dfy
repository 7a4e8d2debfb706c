/**
  Package changeset: reads the commit ID that ko bakes into a container image.

  The HEAD file lives in the directory named by the KO_DATA_PATH environment
  variable. Its content is trimmed, may hold one symbolic reference
  ("ref: refs/heads/main") that is followed exactly once, and must then be a
  40-character lower-case hexadecimal commit ID. The environment variable and
  the directory are parameters here: an optional string and a map from file
  name to file content.
*/
module Changeset {
  import opened Wrappers

  const CommitIdFile := "HEAD"
  const KoDataPathEnvName := "KO_DATA_PATH"
  const RefPrefix := "ref: "
  const CommitIdLength := 40
  const ShortIdLength := 7

  /** What the package sees of the process: the variable KO_DATA_PATH and the files under it. */
  datatype Env = Env(koDataPath: Option<string>, files: map<string, string>)

  datatype CommitError =
    | DataPathUnset(variable: string)   // the variable is unset or empty
    | ReadFailed(file: string)          // the file does not exist under the data path
    | InvalidCommitId(id: string)       // the resolved content, quoted in the message

  /** Go's (string, error) pair: the string is "" whenever the error is set. */
  datatype Answer = Answer(value: string, err: Option<CommitError>)

  // ---------------------------------------------------------------------------
  // strings.TrimSpace and strings.TrimPrefix
  // ---------------------------------------------------------------------------

  /** unicode.IsSpace: the Latin-1 spaces and the other code points with the White_Space property. */
  predicate IsSpace(c: char) {
    c == ' ' || c == '\t' || c == '\n' || c == '\U{0B}' || c == '\U{0C}' || c == '\r'
    || c == '\U{85}' || c == '\U{A0}' || c == '\U{1680}'
    || ('\U{2000}' <= c <= '\U{200A}')
    || c == '\U{2028}' || c == '\U{2029}' || c == '\U{202F}' || c == '\U{205F}' || c == '\U{3000}'
  }

  predicate AllSpace(s: string) {
    forall k :: 0 <= k < |s| ==> IsSpace(s[k])
  }

  /** Neither end of s is white space (vacuously so for the empty string). */
  predicate Trimmed(s: string) {
    s == [] || (!IsSpace(s[0]) && !IsSpace(s[|s| - 1]))
  }

  function TrimLeftSpace(s: string): (r: string)
    ensures |r| <= |s| && r == s[|s| - |r|..]
    ensures AllSpace(s[..|s| - |r|])
    ensures r == [] || !IsSpace(r[0])
  {
    if s != [] && IsSpace(s[0]) then TrimLeftSpace(s[1..]) else s
  }

  function TrimRightSpace(s: string): (r: string)
    ensures |r| <= |s| && r == s[..|r|]
    ensures AllSpace(s[|r|..])
    ensures r == [] || !IsSpace(r[|r| - 1])
  {
    if s != [] && IsSpace(s[|s| - 1]) then TrimRightSpace(s[..|s| - 1]) else s
  }

  /** strings.TrimSpace: drops the white space at both ends and nothing else. */
  function TrimSpace(s: string): (r: string)
    ensures |r| <= |s|
    ensures Trimmed(r)
    ensures Trimmed(s) ==> r == s
    ensures r == [] <==> AllSpace(s)
  {
    TrimRightSpace(TrimLeftSpace(s))
  }

  /** strings.TrimPrefix: a string that starts with the prefix is the prefix followed by the result; any other is returned unchanged. */
  function TrimPrefix(s: string, prefix: string): (r: string)
    ensures prefix <= s ==> prefix + r == s
    ensures !(prefix <= s) ==> r == s
  {
    if prefix <= s then s[|prefix|..] else s
  }

  lemma {:induction false} TrimLeftSpaceSkips(pad: string, rest: string)
    requires AllSpace(pad)
    requires rest == [] || !IsSpace(rest[0])
    ensures TrimLeftSpace(pad + rest) == rest
  {
    if pad != [] {
      assert (pad + rest)[1..] == pad[1..] + rest;
      TrimLeftSpaceSkips(pad[1..], rest);
    } else {
      assert pad + rest == rest;
    }
  }

  lemma {:induction false} TrimRightSpaceSkips(rest: string, pad: string)
    requires AllSpace(pad)
    requires rest == [] || !IsSpace(rest[|rest| - 1])
    ensures TrimRightSpace(rest + pad) == rest
  {
    if pad != [] {
      var shorter := pad[..|pad| - 1];
      assert (rest + pad)[..|rest + pad| - 1] == rest + shorter;
      TrimRightSpaceSkips(rest, shorter);
    } else {
      assert rest + pad == rest;
    }
  }

  /** Trimming content padded with white space gives back the content: TrimSpace inverts padding. */
  lemma TrimSpacePadded(pre: string, core: string, post: string)
    requires AllSpace(pre) && AllSpace(post) && Trimmed(core)
    ensures TrimSpace(pre + core + post) == core
  {
    if core == [] {
      assert pre + core + post == pre + post;
      assert AllSpace(pre + post);
      TrimLeftSpaceSkips(pre + post, []);
      assert pre + post + [] == pre + post;
    } else {
      assert pre + core + post == pre + (core + post);
      TrimLeftSpaceSkips(pre, core + post);
      TrimRightSpaceSkips(core, post);
    }
  }

  /** The Go code tests "TrimPrefix changed the string", which is exactly "the string starts with ref: ". */
  lemma RefDetectedIffPrefixed(s: string)
    ensures TrimPrefix(s, RefPrefix) != s <==> RefPrefix <= s
  {
    if RefPrefix <= s {
      assert |TrimPrefix(s, RefPrefix)| < |s|;
    }
  }

  // ---------------------------------------------------------------------------
  // The commit ID itself
  // ---------------------------------------------------------------------------

  predicate IsLowerHex(c: char) {
    '0' <= c <= '9' || 'a' <= c <= 'f'
  }

  /**
    commitIDRE, ^[a-f0-9]{40}$, stated directly. A commit ID has no white
    space at either end, so trimming keeps it, and it never starts with
    "ref: ", so it is never taken for a symbolic reference.
  */
  predicate IsCommitId(s: string)
    ensures IsCommitId(s) ==> Trimmed(s) && !(RefPrefix <= s)
  {
    |s| == CommitIdLength && forall k :: 0 <= k < |s| ==> IsLowerHex(s[k])
  }

  /** readFileFromKoData: the data path must be set and non-empty before any file is looked at. */
  function ReadFileFromKoData(env: Env, filename: string): (r: Result<string, CommitError>)
    ensures (env.koDataPath == None || env.koDataPath == Some("")) <==> r == Failure(DataPathUnset(KoDataPathEnvName))
    ensures r.Success? <==> env.koDataPath != None && env.koDataPath != Some("") && filename in env.files
    ensures r.Success? ==> r.value == env.files[filename]
    ensures r.Failure? && r.error != DataPathUnset(KoDataPathEnvName) ==> r.error == ReadFailed(filename)
  {
    if env.koDataPath == None || env.koDataPath == Some("") then
      Failure(DataPathUnset(KoDataPathEnvName))
    else if filename in env.files then
      Success(env.files[filename])
    else
      Failure(ReadFailed(filename))
  }

  /**
    The first part of getCommitID: read HEAD, trim it, and when it reads
    "ref: <name>" read <name> instead (once) and trim that.
  */
  function ReadCommitData(env: Env): (r: Result<string, CommitError>)
    ensures r.Success? ==> Trimmed(r.value)
  {
    match ReadFileFromKoData(env, CommitIdFile)
    case Failure(e) => Failure(e)
    case Success(data) =>
      var commitId := TrimSpace(data);
      var rId := TrimPrefix(commitId, RefPrefix);
      if rId != commitId then
        match ReadFileFromKoData(env, rId)
        case Failure(e) => Failure(e)
        case Success(refData) => Success(TrimSpace(refData))
      else
        Success(commitId)
  }

  /** getCommitID, as written: on success it returns the first 7 characters, not the full ID. */
  function GetCommitId(env: Env): (r: Answer)
    ensures r.err.Some? ==> r.value == ""
    ensures r.err.None? <==> ReadCommitData(env).Success? && IsCommitId(ReadCommitData(env).value)
    ensures r.err.None? ==> |r.value| == ShortIdLength && r.value <= ReadCommitData(env).value
    ensures ReadCommitData(env).Failure? ==> r.err == Some(ReadCommitData(env).error)
    ensures ReadCommitData(env).Success? && !IsCommitId(ReadCommitData(env).value) ==>
              r.err == Some(InvalidCommitId(ReadCommitData(env).value))
  {
    match ReadCommitData(env)
    case Failure(e) => Answer("", Some(e))
    case Success(commitId) =>
      if IsCommitId(commitId) then Answer(commitId[..ShortIdLength], None)
      else Answer("", Some(InvalidCommitId(commitId)))
  }

  /** Get: the short commit ID, or "" and the error. */
  function Get(env: Env): (r: Answer)
    ensures r.err == GetCommitId(env).err
    ensures r.err.Some? ==> r.value == ""
    ensures r.err.None? ==> r.value == GetCommitId(env).value
    ensures r.err.None? ==> |r.value| == ShortIdLength && r.value < ReadCommitData(env).value
  {
    var a := GetCommitId(env);
    if a.err == None then
      ShortIdIsItsOwnPrefix(a.value);
      Answer(a.value[..ShortIdLength], None)
    else
      Answer("", a.err)
  }

  /**
    GetFull: documented as returning the full commit ID, it returns whatever
    getCommitID returns, so a success is a 7-character proper prefix of the ID.
  */
  function GetFull(env: Env): (r: Answer)
    ensures r.err == GetCommitId(env).err
    ensures r.err.Some? ==> r.value == ""
    ensures r.err.None? ==> |r.value| == ShortIdLength && r.value < ReadCommitData(env).value
  {
    GetCommitId(env)
  }

  // ---------------------------------------------------------------------------
  // Properties
  // ---------------------------------------------------------------------------

  /** With KO_DATA_PATH unset or empty, every entry point fails with that error, whatever the files hold. */
  lemma UnsetDataPathFails(env: Env)
    requires env.koDataPath == None || env.koDataPath == Some("")
    ensures GetCommitId(env) == Answer("", Some(DataPathUnset(KoDataPathEnvName)))
    ensures Get(env) == GetCommitId(env) && GetFull(env) == GetCommitId(env)
  {
  }

  /** A HEAD that holds a commit ID directly, padded with white space, yields its first 7 characters. */
  lemma DirectHeadResolves(env: Env, pre: string, id: string, post: string)
    requires env.koDataPath.Some? && env.koDataPath.value != ""
    requires CommitIdFile in env.files && env.files[CommitIdFile] == pre + id + post
    requires AllSpace(pre) && AllSpace(post) && IsCommitId(id)
    ensures ReadCommitData(env) == Success(id)
    ensures GetCommitId(env) == Answer(id[..ShortIdLength], None)
  {
    TrimSpacePadded(pre, id, post);
    DirectRead(env, id);
  }

  /** When HEAD does not trim to "ref: ...", the data read is HEAD's trimmed content, whatever it is. */
  lemma DirectRead(env: Env, s: string)
    requires env.koDataPath.Some? && env.koDataPath.value != ""
    requires CommitIdFile in env.files && TrimSpace(env.files[CommitIdFile]) == s && !(RefPrefix <= s)
    ensures ReadCommitData(env) == Success(s)
  {
    RefDetectedIffPrefixed(s);
    assert TrimPrefix(s, RefPrefix) == s;
    var data := env.files[CommitIdFile];
    assert ReadFileFromKoData(env, CommitIdFile) == Success(data);
    assert TrimSpace(data) == s;
  }

  /**
    A HEAD that is neither a reference nor a commit ID (39 characters, upper-case
    hex, anything else) makes Get and GetFull fail with "" and an error quoting
    the trimmed content.
  */
  lemma BadHeadRejected(env: Env, s: string)
    requires env.koDataPath.Some? && env.koDataPath.value != ""
    requires CommitIdFile in env.files && TrimSpace(env.files[CommitIdFile]) == s
    requires !(RefPrefix <= s) && !IsCommitId(s)
    ensures Get(env) == Answer("", Some(InvalidCommitId(s)))
    ensures GetFull(env) == Get(env)
  {
    DirectRead(env, s);
  }

  /**
    A HEAD of the form "ref: <name>" is followed to <name>; a commit ID found
    there, padded with white space, yields its first 7 characters.
  */
  lemma SymbolicRefResolves(env: Env, pre: string, name: string, post: string,
                            pre2: string, id: string, post2: string)
    requires env.koDataPath.Some? && env.koDataPath.value != ""
    requires AllSpace(pre) && AllSpace(post) && AllSpace(pre2) && AllSpace(post2)
    requires name != [] && !IsSpace(name[|name| - 1])
    requires CommitIdFile in env.files && env.files[CommitIdFile] == pre + RefPrefix + name + post
    requires name in env.files && env.files[name] == pre2 + id + post2
    requires IsCommitId(id)
    ensures ReadCommitData(env) == Success(id)
    ensures GetCommitId(env) == Answer(id[..ShortIdLength], None)
  {
    HeadIsRef(pre, name, post);
    RefFollowed(env, name);
    TrimSpacePadded(pre2, id, post2);
    assert ReadCommitData(env) == Success(id);
  }

  /** A HEAD holding "ref: <name>" padded with white space trims to exactly that. */
  lemma HeadIsRef(pre: string, name: string, post: string)
    requires AllSpace(pre) && AllSpace(post)
    requires name != [] && !IsSpace(name[|name| - 1])
    ensures TrimSpace(pre + RefPrefix + name + post) == RefPrefix + name
  {
    var ref := RefPrefix + name;
    assert Trimmed(ref);
    assert pre + RefPrefix + name + post == pre + ref + post;
    TrimSpacePadded(pre, ref, post);
  }

  /** When HEAD trims to "ref: <name>" and <name> exists, the data read is <name>'s content, trimmed. */
  lemma RefFollowed(env: Env, name: string)
    requires env.koDataPath.Some? && env.koDataPath.value != ""
    requires CommitIdFile in env.files && TrimSpace(env.files[CommitIdFile]) == RefPrefix + name
    ensures name in env.files ==> ReadCommitData(env) == Success(TrimSpace(env.files[name]))
    ensures name !in env.files ==> ReadCommitData(env) == Failure(ReadFailed(name))
  {
    StripRef(name);
    assert ReadFileFromKoData(env, CommitIdFile) == Success(env.files[CommitIdFile]);
  }

  /** Stripping the prefix off "ref: <name>" leaves <name>, which differs from what it was cut from. */
  lemma StripRef(name: string)
    ensures TrimPrefix(RefPrefix + name, RefPrefix) == name
    ensures name != RefPrefix + name
  {
    var head := RefPrefix + name;
    assert RefPrefix <= head;
    assert head[|RefPrefix|..] == name;
    assert |name| < |head|;
  }

  /** Only one level of "ref: " is followed: a second reference is taken as the ID and rejected, quoted. */
  lemma NestedRefRejected(env: Env, name: string)
    requires env.koDataPath.Some? && env.koDataPath.value != ""
    requires CommitIdFile in env.files && TrimSpace(env.files[CommitIdFile]) == RefPrefix + name
    requires name in env.files && RefPrefix <= TrimSpace(env.files[name])
    ensures GetCommitId(env) == Answer("", Some(InvalidCommitId(TrimSpace(env.files[name]))))
  {
    RefFollowed(env, name);
    var target := TrimSpace(env.files[name]);
    assert ReadCommitData(env) == Success(target);
  }

  /** A missing HEAD, or a missing ref target, is reported by name with an empty ID. */
  lemma MissingFileFails(env: Env, name: string)
    requires env.koDataPath.Some? && env.koDataPath.value != ""
    requires CommitIdFile !in env.files
             || (CommitIdFile in env.files && TrimSpace(env.files[CommitIdFile]) == RefPrefix + name
                 && name !in env.files)
    ensures CommitIdFile !in env.files ==> GetCommitId(env) == Answer("", Some(ReadFailed(CommitIdFile)))
    ensures CommitIdFile in env.files ==> GetCommitId(env) == Answer("", Some(ReadFailed(name)))
  {
    if CommitIdFile in env.files {
      RefFollowed(env, name);
    }
  }

  /** The shapes the pattern ^[a-f0-9]{40}$ refuses: a wrong length, or any character outside [a-f0-9]. */
  lemma NonCommitIdsRejected(s: string, k: nat)
    requires |s| != CommitIdLength || (k < |s| && !IsLowerHex(s[k]))
    ensures !IsCommitId(s)
  {
  }

  /** Because getCommitID already truncates, Get and GetFull return the same pair on every input. */
  lemma GetEqualsGetFull(env: Env)
    ensures Get(env) == GetFull(env)
    ensures GetFull(env).err.None? ==> |GetFull(env).value| == ShortIdLength
  {
    var a := GetCommitId(env);
    if a.err == None {
      ShortIdIsItsOwnPrefix(a.value);
    }
  }

  lemma ShortIdIsItsOwnPrefix(s: string)
    requires |s| == ShortIdLength
    ensures s[..ShortIdLength] == s
  {
  }

  // ---------------------------------------------------------------------------
  // Finding: GetFull returns 7 characters
  // ---------------------------------------------------------------------------

  /** GetFull as written, on a valid HEAD behind "ref: refs/heads/main", returns 7 characters where the full 40 were documented. */
  lemma GetFullTruncates(id: string)
    requires IsCommitId(id)
    ensures var env := Env(Some("/var/run/ko"), map[CommitIdFile := RefPrefix + "refs/heads/main" + "\n",
                                                     "refs/heads/main" := id + "\n"]);
            GetFull(env) == Answer(id[..ShortIdLength], None) && GetFull(env).value != id
  {
    var name := "refs/heads/main";
    var env := Env(Some("/var/run/ko"), map[CommitIdFile := RefPrefix + name + "\n", name := id + "\n"]);
    assert CommitIdFile != name;
    assert env.files[CommitIdFile] == [] + RefPrefix + name + "\n";
    assert env.files[name] == [] + id + "\n";
    SymbolicRefResolves(env, [], name, "\n", [], id, "\n");
  }

  /** getCommitID as evidently intended: the validated 40-character ID, untruncated. */
  function FullCommitId(env: Env): (r: Answer)
    ensures r.err.Some? ==> r.value == ""
    ensures r.err.None? ==> IsCommitId(r.value) && ReadCommitData(env) == Success(r.value)
    ensures r.err == GetCommitId(env).err
  {
    match ReadCommitData(env)
    case Failure(e) => Answer("", Some(e))
    case Success(commitId) =>
      if IsCommitId(commitId) then Answer(commitId, None)
      else Answer("", Some(InvalidCommitId(commitId)))
  }

  /** With the corrected reader, GetFull returns the full ID behind a symbolic ref and Get its first 7 characters. */
  lemma FullCommitIdRoundTrip(env: Env, name: string, id: string)
    requires env.koDataPath.Some? && env.koDataPath.value != ""
    requires name != [] && !IsSpace(name[|name| - 1])
    requires CommitIdFile in env.files && env.files[CommitIdFile] == RefPrefix + name + "\n"
    requires name in env.files && env.files[name] == id + "\n"
    requires IsCommitId(id)
    ensures FullCommitId(env) == Answer(id, None)
    ensures Get(env) == Answer(FullCommitId(env).value[..ShortIdLength], None)
  {
    assert RefPrefix + name + "\n" == [] + RefPrefix + name + "\n";
    assert id + "\n" == [] + id + "\n";
    SymbolicRefResolves(env, [], name, "\n", [], id, "\n");
  }
}
