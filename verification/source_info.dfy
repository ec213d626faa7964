// The execution engine's `SourceInfo`: one bitcode source of a script
// (a buffer, a file or an already-parsed module), with the flags and the
// SHA-1 used for the cache's dependency check.

module SourceInfo {
  import opened Common

  /** Where the source comes from. */
  datatype SourceKind =
    | Buffer(resName: Option<seq<char>>, bitcode: seq<byte>)
    | File(path: seq<char>)
    | ParsedModule

  datatype Source = Source(kind: SourceKind, flags: set<Flag>, sha1: seq<byte>)

  /** A source as the constructors make it: a buffer whose check is not
    * skipped has a resource name. */
  predicate WellFormed(s: Source)
  {
    s.kind.Buffer? && SkipDepSha1 !in s.flags ==> s.kind.resName.Some?
  }

  /** The two kinds of dependency a cache records. */
  datatype ResourceType = ApkResource | FileResource

  datatype SourceDependency = SourceDependency(resType: ResourceType, name: seq<char>,
                                               sha1: seq<byte>)

  /** `createFromBuffer`: a source without a resource name gets
    * BCC_SKIP_DEP_SHA1; a skipped source stores 20 zero bytes, any other
    * the SHA-1 of the bitcode (`digest`).  `allocOk` is whether the
    * object could be allocated. */
  function CreateFromBuffer(resName: Option<seq<char>>, bitcode: seq<byte>, flags: set<Flag>,
                            digest: seq<byte>, allocOk: bool): (r: Option<Source>)
    ensures r.Some? <==> allocOk
    ensures r.Some? ==> r.value.kind == Buffer(resName, bitcode) && WellFormed(r.value)
    ensures r.Some? ==> r.value.flags == (if resName.None? then flags + {SkipDepSha1} else flags)
    ensures r.Some? ==> r.value.sha1 == (if SkipDepSha1 in r.value.flags then ZeroSha1() else digest)
  {
    if !allocOk then None
    else
      var f := if resName.None? && SkipDepSha1 !in flags then flags + {SkipDepSha1} else flags;
      Some(Source(Buffer(resName, bitcode), f, if SkipDepSha1 in f then ZeroSha1() else digest))
  }

  /** `createFromFile`: the flags as given; the file's SHA-1 (`fileDigest`)
    * unless the check is skipped, 20 zero bytes otherwise. */
  function CreateFromFile(path: seq<char>, flags: set<Flag>, fileDigest: seq<byte>,
                          allocOk: bool): (r: Option<Source>)
    ensures r.Some? <==> allocOk
    ensures r.Some? ==> r.value.kind == File(path) && r.value.flags == flags
    ensures r.Some? ==> r.value.sha1 == (if SkipDepSha1 in flags then ZeroSha1() else fileDigest)
  {
    if !allocOk then None
    else Some(Source(File(path), flags, if SkipDepSha1 in flags then ZeroSha1() else fileDigest))
  }

  /** `createFromModule`: a parsed module has no bytes to hash, so the check
    * is always skipped and the SHA-1 is zero. */
  function CreateFromModule(flags: set<Flag>, allocOk: bool): (r: Option<Source>)
    ensures r.Some? <==> allocOk
    ensures r.Some? ==> r.value.kind == ParsedModule && SkipDepSha1 in r.value.flags &&
                        r.value.flags == flags + {SkipDepSha1} && r.value.sha1 == ZeroSha1()
  {
    if !allocOk then None else Some(Source(ParsedModule, flags + {SkipDepSha1}, ZeroSha1()))
  }

  /** `introDependency`: nothing for a skipped source; a buffer is an APK
    * resource under its resource name, a file a file resource under its
    * path; a module adds nothing. */
  function IntroDependency(s: Source): (d: Option<SourceDependency>)
    requires WellFormed(s)
    ensures d.Some? <==> SkipDepSha1 !in s.flags && !s.kind.ParsedModule?
    ensures d.Some? && s.kind.Buffer? ==>
      d.value == SourceDependency(ApkResource, s.kind.resName.value, s.sha1)
    ensures d.Some? && s.kind.File? ==> d.value == SourceDependency(FileResource, s.kind.path, s.sha1)
  {
    if SkipDepSha1 in s.flags then None
    else match s.kind
      case Buffer(resName, _) => Some(SourceDependency(ApkResource, resName.value, s.sha1))
      case File(path) => Some(SourceDependency(FileResource, path, s.sha1))
      case ParsedModule => None
  }

  /** Every source the constructors make can introduce its dependency, and
    * what it introduces carries the real digest: a zero SHA-1 is never
    * recorded. */
  lemma {:induction false} CreatedSourcesIntroduceRealDigests(
    resName: Option<seq<char>>, bitcode: seq<byte>, path: seq<char>, flags: set<Flag>,
    digest: seq<byte>, fileDigest: seq<byte>)
    ensures var b := CreateFromBuffer(resName, bitcode, flags, digest, true).value;
      WellFormed(b) &&
      (IntroDependency(b).Some? <==> resName.Some? && SkipDepSha1 !in flags) &&
      (IntroDependency(b).Some? ==> IntroDependency(b).value == SourceDependency(ApkResource, resName.value, digest))
    ensures var f := CreateFromFile(path, flags, fileDigest, true).value;
      WellFormed(f) && (IntroDependency(f).Some? <==> SkipDepSha1 !in flags)
    ensures var f := CreateFromFile(path, flags, fileDigest, true).value;
      IntroDependency(f).Some? ==> IntroDependency(f).value == SourceDependency(FileResource, path, fileDigest)
    ensures WellFormed(CreateFromModule(flags, true).value)
    ensures IntroDependency(CreateFromModule(flags, true).value).None?
  {
  }
}
