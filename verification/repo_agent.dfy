/**
 * The repository scan (src/se_assistant/nodes/repo_agent.py): over the
 * sorted file listing, which is an input here, record every file, the
 * recognised configuration files and the test framework they imply.
 */
module RepoNode {
  import opened Wrappers
  import opened State

  /** The configuration file names that are recognised. */
  const ConfigNames: set<string> := {"pyproject.toml", "package.json", "requirements.txt"}

  /** The listed files that are configuration files, in listing order. */
  function Configs(files: seq<string>): (configs: seq<string>)
    decreases |files|
    ensures |configs| <= |files|
    ensures forall c :: c in configs <==> c in files && c in ConfigNames
    ensures configs == [] <==> forall f :: f in files ==> f !in ConfigNames
  {
    if files == [] then []
    else
      var rest := Configs(files[..|files| - 1]);
      var f := files[|files| - 1];
      if f in ConfigNames then rest + [f] else rest
  }

  /** The map `repo_agent` builds from a listing. */
  function ScanRepo(files: seq<string>): (m: RepoMap)
    ensures |m.files| == |files| && forall i :: 0 <= i < |files| ==> m.files[i] == FileEntry(files[i])
    ensures m.configsFound == Configs(files)
    ensures m.testFramework == Some("pytest") <==> "pyproject.toml" in files
    ensures m.testFramework.None? <==> "pyproject.toml" !in files
    ensures m.entrypoints == []
  {
    var configs := Configs(files);
    RepoMap(
      seq(|files|, i requires 0 <= i < |files| => FileEntry(files[i])),
      configs,
      if "pyproject.toml" in configs then Some("pytest") else None,
      [])
  }

  /** Filtering keeps the listing's order: it distributes over concatenation. */
  lemma {:induction false} ConfigsAppend(a: seq<string>, b: seq<string>)
    ensures Configs(a + b) == Configs(a) + Configs(b)
    decreases |b|
  {
    if b == [] {
      assert a + b == a;
    } else {
      var b' := b[..|b| - 1];
      assert (a + b)[..|a + b| - 1] == a + b';
      ConfigsAppend(a, b');
    }
  }

  /** `repo_agent`: replace the repository map; nothing else changes. */
  method RepoAgent(t: Ticket, files: seq<string>)
    modifies t`repoMap
    ensures t.repoMap == ScanRepo(files)
  {
    t.repoMap := ScanRepo(files);
  }
}
