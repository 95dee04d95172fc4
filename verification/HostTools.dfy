/** Installing the pinned host tools, and the validator that must accept the result.

    A plain binary is checked by its own digest; `docker` comes in an archive, so what is
    checked later is the sidecar that records the archive's digest. File contents are text. */
module HostTools {
  import opened Wrappers
  import opened Text

  type Files = map<string, string>

  datatype Format = Binary | Tgz

  datatype Tool = Tool(name: string, sums: map<string, string>)

  datatype Outcome = Cached | FromBundle | Downloaded | Failed

  datatype Verdict = AllGood | UnsupportedArch | NotInstalled | ChecksumMismatch | Unreadable

  /** `artifact_format`. */
  function FormatOf(name: string): Format {
    if name == "docker" then Tgz else Binary
  }

  /** `sha256_for_arch`. */
  function Expected(tool: Tool, arch: string): Option<string> {
    var key := if arch == "aarch64" then "arm64" else if arch == "amd64" then "x86_64" else arch;
    if key in tool.sums then Some(tool.sums[key]) else None
  }

  function Sidecar(name: string): string {
    name + ".sha256"
  }

  function Archive(name: string): string {
    name + ".tgz"
  }

  /** What the validator asks of one tool. */
  ghost predicate Good(files: Files, tool: Tool, arch: string, sha: string -> string) {
    && Expected(tool, arch).Some? && tool.name in files
    && match FormatOf(tool.name)
       case Binary => sha(files[tool.name]) == Expected(tool, arch).value
       case Tgz => Sidecar(tool.name) in files && Trim(files[Sidecar(tool.name)]) == Expected(tool, arch).value
  }

  /** Digests are printed in hexadecimal. */
  ghost predicate HexDigests(sha: string -> string) {
    forall content :: Trimmed(sha(content))
  }

  /** The files an installation of the tool may write. */
  function Touched(tool: Tool): set<string> {
    {tool.name, Sidecar(tool.name)} + if FormatOf(tool.name) == Tgz then {Archive(tool.name)} else {}
  }

  ghost predicate SameOutside(before: Files, after: Files, touched: set<string>) {
    forall p | p !in touched :: (p in before <==> p in after) && (p in before ==> after[p] == before[p])
  }

  /** No tool is another's sidecar, archive or double. */
  ghost predicate NonColliding(tools: seq<Tool>) {
    forall i, j | 0 <= i < |tools| && 0 <= j < |tools| && i != j :: tools[i].name !in Touched(tools[j])
  }

  lemma SidecarsDiffer(a: string, b: string)
    ensures Sidecar(a) == Sidecar(b) ==> a == b
    ensures Sidecar(a) != Archive(b)
  {
    assert Sidecar(a)[..|a|] == a && Sidecar(b)[..|b|] == b;
    assert Sidecar(a)[|a| + 6] == '6' && Archive(b)[|b| + 3] == 'z';
    assert |Sidecar(a)| == |a| + 7 && |Archive(b)| == |b| + 4;
  }

  /** Installing one tool leaves every other one as good as it was. */
  lemma OthersStayGood(before: Files, after: Files, tool: Tool, other: Tool, arch: string, sha: string -> string)
    requires SameOutside(before, after, Touched(tool)) && other.name !in Touched(tool) && tool.name !in Touched(other)
    ensures Good(before, other, arch, sha) <==> Good(after, other, arch, sha)
  {
    SidecarsDiffer(other.name, tool.name);
  }

  /** A tool named like the sidecar of `docker` replaces that sidecar, and `docker` passes
      afterwards exactly if the new tool's own text happens to be docker's digest. */
  lemma CollidingToolBreaksDockerIff(files: Files, docker: Tool, arch: string, sha: string -> string, content: string)
    requires docker.name == "docker" && Good(files, docker, arch, sha)
    ensures Good(files[Sidecar("docker") := content], docker, arch, sha) <==> Trim(content) == Expected(docker, arch).value
  {
    SidecarsDiffer("docker", "docker");
    assert |Sidecar("docker")| != |"docker"|;
  }

  class Manager {
    const arch: string
    const tools: seq<Tool>
    const bundle: Option<Files>
    const sha: string -> string
    /** Whether reads and writes succeed: nothing else uses the directory. */
    const steady: bool
    var files: Files

    constructor (arch: string, tools: seq<Tool>, bundle: Option<Files>, sha: string -> string, steady: bool, files: Files)
      ensures this.arch == arch && this.tools == tools && this.bundle == bundle && this.sha == sha && this.steady == steady && this.files == files
    {
      this.arch, this.tools, this.bundle, this.sha, this.steady, this.files := arch, tools, bundle, sha, steady, files;
    }

    /** A write; one that fails may leave anything in the file. */
    method Write(path: string, content: string) returns (ok: bool)
      modifies this
      ensures SameOutside(old(files), files, {path})
      ensures ok ==> path in files && files[path] == content
    {
      ok := Attempt(steady);
      var written := content;
      if !ok {
        written := *;
      }
      files := files[path := written];
    }

    /** `is_cached`, for a tool whose file exists. */
    method IsCached(tool: Tool, expected: string) returns (cached: bool)
      requires tool.name in files && Expected(tool, arch) == Some(expected)
      ensures cached ==> Good(files, tool, arch, sha)
      ensures steady && Good(files, tool, arch, sha) ==> cached
    {
      var readable := Attempt(steady);
      if !readable {
        return false;
      }
      match FormatOf(tool.name) {
        case Binary =>
          return sha(files[tool.name]) == expected;
        case Tgz =>
          return Sidecar(tool.name) in files && Trim(files[Sidecar(tool.name)]) == expected;
      }
    }

    /** `try_install_from_bundle`: the copy is checked before it replaces the tool. */
    method TryBundle(tool: Tool, expected: string) returns (installed: bool)
      requires Expected(tool, arch) == Some(expected)
      modifies this
      ensures SameOutside(old(files), files, {tool.name})
      ensures installed ==> tool.name in files && (FormatOf(tool.name) == Binary ==> sha(files[tool.name]) == expected)
      ensures installed ==> FormatOf(tool.name) == Binary || Trimmed(expected)
      ensures !installed ==> files == old(files)
    {
      if bundle.None? || tool.name !in bundle.value {
        return false;
      }
      var ok := Attempt(steady);
      if !ok {
        return false;
      }
      var copy := bundle.value[tool.name];
      match FormatOf(tool.name) {
        case Binary =>
          ok := sha(copy) == expected;
        case Tgz =>
          ok := Sidecar(tool.name) in bundle.value && Trim(bundle.value[Sidecar(tool.name)]) == expected;
          if ok {
            TrimFixesIff(bundle.value[Sidecar(tool.name)]);
          }
      }
      if !ok {
        return false;
      }
      ok := Attempt(steady);
      if !ok {
        return false;
      }
      files := files[tool.name := copy];
      return true;
    }

    /** `download_and_verify`: whatever arrives takes its place only with the right digest. */
    method Download(path: string, expected: string) returns (ok: bool)
      modifies this
      ensures SameOutside(old(files), files, {path})
      ensures ok ==> path in files && sha(files[path]) == expected
      ensures !ok ==> files == old(files)
    {
      var body: string := *;
      ok := Attempt(steady);
      if !ok || sha(body) != expected {
        return false;
      }
      files := files[path := body];
      return true;
    }

    /** Fetch the tool itself, or its archive and then the tool out of it. */
    method Fetch(tool: Tool, expected: string) returns (ok: bool)
      requires HexDigests(sha)
      modifies this
      ensures SameOutside(old(files), files, Touched(tool))
      ensures ok ==> tool.name in files && (FormatOf(tool.name) == Binary ==> sha(files[tool.name]) == expected)
      ensures ok ==> Trimmed(expected)
    {
      match FormatOf(tool.name) {
        case Binary =>
          ok := Download(tool.name, expected);
        case Tgz =>
          ok := Download(Archive(tool.name), expected);
          if !ok {
            return;
          }
          var inner: string := *;
          ok := Write(tool.name, inner);
          if !ok {
            return;
          }
          var removed: bool := *;
          if removed {
            assert |Archive(tool.name)| != |tool.name|;
            files := files - {Archive(tool.name)};
          }
      }
    }

    /** Record the digest: `write_sidecar`. */
    method Record(tool: Tool, expected: string) returns (ok: bool)
      requires Expected(tool, arch) == Some(expected) && (FormatOf(tool.name) == Tgz ==> Trimmed(expected))
      requires tool.name in files && (FormatOf(tool.name) == Binary ==> sha(files[tool.name]) == expected)
      modifies this
      ensures SameOutside(old(files), files, {Sidecar(tool.name)})
      ensures ok ==> Good(files, tool, arch, sha)
    {
      assert |Sidecar(tool.name)| != |tool.name|;
      TrimFixesIff(expected);
      ok := Write(Sidecar(tool.name), expected);
    }

    /** `install_one`. Whatever way it succeeds, the validator will accept the tool. */
    method InstallOne(tool: Tool) returns (r: Outcome)
      requires HexDigests(sha)
      modifies this
      ensures SameOutside(old(files), files, Touched(tool))
      ensures r != Failed ==> Good(files, tool, arch, sha)
      ensures r == Cached ==> files == old(files)
      ensures steady && Good(old(files), tool, arch, sha) ==> r == Cached
    {
      var sum := Expected(tool, arch);
      if sum.None? {
        return Failed;
      }
      var expected := sum.value;
      if tool.name in files {
        var cached := IsCached(tool, expected);
        if cached {
          return Cached;
        }
      }
      var bundled := TryBundle(tool, expected);
      var ok := bundled;
      if !bundled {
        ok := Fetch(tool, expected);
      }
      if !ok {
        return Failed;
      }
      ok := Record(tool, expected);
      if !ok {
        return Failed;
      }
      return if bundled then FromBundle else Downloaded;
    }

    /** `install_all`: stops at the first failure. After success on tools that do not collide
        every one of them is good; and where they all already were, nothing is written. */
    method InstallAll() returns (ok: bool, outcomes: seq<Outcome>)
      requires HexDigests(sha)
      modifies this
      ensures ok ==> |outcomes| == |tools|
      ensures ok && NonColliding(tools) ==> forall i | 0 <= i < |tools| :: Good(files, tools[i], arch, sha)
      ensures steady && (forall i | 0 <= i < |tools| :: Good(old(files), tools[i], arch, sha)) ==>
        ok && files == old(files) && forall i | 0 <= i < |outcomes| :: outcomes[i] == Cached
    {
      outcomes := [];
      ok := Attempt(steady);
      if !ok {
        return;
      }
      while |outcomes| < |tools|
        invariant |outcomes| <= |tools|
        invariant NonColliding(tools) ==> forall i | 0 <= i < |outcomes| :: Good(files, tools[i], arch, sha)
        invariant steady && (forall i | 0 <= i < |tools| :: Good(old(files), tools[i], arch, sha)) ==>
          files == old(files) && forall i | 0 <= i < |outcomes| :: outcomes[i] == Cached
        decreases |tools| - |outcomes|
      {
        var n := |outcomes|;
        ghost var before := files;
        var r := InstallOne(tools[n]);
        if r == Failed {
          return false, outcomes;
        }
        forall i | 0 <= i < n && NonColliding(tools) ensures Good(files, tools[i], arch, sha) {
          OthersStayGood(before, files, tools[n], tools[i], arch, sha);
        }
        outcomes := outcomes + [r];
      }
      return true, outcomes;
    }

    /** `validate_all`: accepts exactly when every tool is good, reads permitting. */
    method ValidateAll() returns (v: Verdict)
      ensures v == AllGood ==> forall i | 0 <= i < |tools| :: Good(files, tools[i], arch, sha)
      ensures steady ==> (v == AllGood <==> forall i | 0 <= i < |tools| :: Good(files, tools[i], arch, sha))
    {
      var n := 0;
      while n < |tools|
        invariant 0 <= n <= |tools|
        invariant forall i | 0 <= i < n :: Good(files, tools[i], arch, sha)
      {
        var tool := tools[n];
        var expected := Expected(tool, arch);
        if expected.None? {
          return UnsupportedArch;
        }
        if tool.name !in files {
          return NotInstalled;
        }
        var readable := Attempt(steady);
        if !readable {
          return Unreadable;
        }
        match FormatOf(tool.name) {
          case Binary =>
            if sha(files[tool.name]) != expected.value {
              return ChecksumMismatch;
            }
          case Tgz =>
            if Sidecar(tool.name) !in files {
              return NotInstalled;
            }
            if Trim(files[Sidecar(tool.name)]) != expected.value {
              return ChecksumMismatch;
            }
        }
        n := n + 1;
      }
      return AllGood;
    }

    /** After an installation that succeeded, the validator accepts, and installing again
        finds every tool cached. */
    method InstallValidateReinstall() returns (installed: bool, v: Verdict, again: bool, outcomes: seq<Outcome>)
      requires NonColliding(tools) && steady && HexDigests(sha)
      modifies this
      ensures installed ==> v == AllGood && again && |outcomes| == |tools| && forall i | 0 <= i < |tools| :: outcomes[i] == Cached
    {
      installed, outcomes := InstallAll();
      v := ValidateAll();
      again, outcomes := InstallAll();
    }
  }
}
