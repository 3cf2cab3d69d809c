/**
 * The safety gate (src/se_assistant/nodes/safety_agent.py): collect the
 * lower-cased paths touched by every patch recorded so far, and ask for
 * human review as soon as one of them looks sensitive.
 */
module SafetyNode {
  import opened Wrappers
  import opened Strings
  import opened State

  /** The substrings that make a touched path sensitive. */
  const SensitiveHints: seq<string> := ["security.py", ".env", "secret", "token", "auth"]

  const SensitiveFlag := "sensitive_file_touched"

  const SensitiveReasonPrefix := "Patch touches sensitive file: "

  /** `any(h in f for h in SENSITIVE_HINTS)`. */
  predicate Sensitive(f: string) {
    exists i | 0 <= i < |SensitiveHints| :: Contains(f, SensitiveHints[i])
  }

  /** The lower-cased paths one patch touches. */
  function LoweredPaths(files: seq<string>): set<string> {
    set f | f in files :: Lower(f)
  }

  /** The set `touched`: lower-cased paths over all patches, oldest first. */
  function Touched(patches: seq<Patch>): set<string>
    decreases |patches|
  {
    if patches == [] then {}
    else Touched(patches[..|patches| - 1]) + LoweredPaths(patches[|patches| - 1].filesTouched)
  }

  /** A path is touched exactly when some recorded patch lists it, in some letter case. */
  lemma {:induction false} TouchedMembers(patches: seq<Patch>, f: string)
    ensures f in Touched(patches) <==>
      exists i, j :: 0 <= i < |patches| && 0 <= j < |patches[i].filesTouched| && f == Lower(patches[i].filesTouched[j])
    decreases |patches|
  {
    if patches != [] {
      var init := patches[..|patches| - 1];
      var last := patches[|patches| - 1];
      TouchedMembers(init, f);
      if f in Touched(patches) {
        if f in Touched(init) {
          var i, j :| 0 <= i < |init| && 0 <= j < |init[i].filesTouched| && f == Lower(init[i].filesTouched[j]);
          assert patches[i] == init[i];
        } else {
          var g :| g in last.filesTouched && f == Lower(g);
          var j :| 0 <= j < |last.filesTouched| && last.filesTouched[j] == g;
          assert f == Lower(patches[|patches| - 1].filesTouched[j]);
        }
      }
      if exists i, j :: 0 <= i < |patches| && 0 <= j < |patches[i].filesTouched| && f == Lower(patches[i].filesTouched[j]) {
        var i, j :| 0 <= i < |patches| && 0 <= j < |patches[i].filesTouched| && f == Lower(patches[i].filesTouched[j]);
        if i < |init| {
          assert init[i] == patches[i];
        } else {
          assert patches[i].filesTouched[j] in last.filesTouched;
        }
      }
    }
  }

  /** The gate is cumulative: recording another patch never un-touches a path. */
  lemma TouchedGrows(patches: seq<Patch>, p: Patch)
    ensures Touched(patches + [p]) == Touched(patches) + LoweredPaths(p.filesTouched)
    ensures Touched(patches) <= Touched(patches + [p])
  {
    assert (patches + [p])[..|patches|] == patches;
  }

  /** The nested loops that build `touched`. */
  method CollectTouched(patches: seq<Patch>) returns (touched: set<string>)
    ensures touched == Touched(patches)
  {
    touched := {};
    for i := 0 to |patches|
      invariant touched == Touched(patches[..i])
    {
      var files := patches[i].filesTouched;
      ghost var before := touched;
      for j := 0 to |files|
        invariant touched == before + LoweredPaths(files[..j])
      {
        assert files[..j + 1] == files[..j] + [files[j]];
        touched := touched + {Lower(files[j])};
      }
      assert files[..|files|] == files;
      assert patches[..i + 1][..i] == patches[..i];
    }
    assert patches[..|patches|] == patches;
  }

  /** `list(touched)`: the set's elements, each once, in some order. */
  method SetToList(s: set<string>) returns (xs: seq<string>)
    ensures (set x | x in xs) == s && |xs| == |s|
  {
    xs := [];
    var rest := s;
    while rest != {}
      invariant rest <= s && (set x | x in xs) == s - rest && |xs| == |s - rest|
      decreases |rest|
    {
      var x :| x in rest;
      assert x !in (set y | y in xs);
      assert s - (rest - {x}) == (s - rest) + {x};
      xs := xs + [x];
      rest := rest - {x};
    }
  }

  /** The gate's decision: nothing sensitive, or the first sensitive path met and every touched path. */
  datatype Verdict = Clear | Flagged(path: string, touched: seq<string>)

  /**
   * The scan of `safety_agent`. Python visits a set in an order of its own;
   * here the order is arbitrary, so the reported path is any sensitive one.
   */
  method Scan(patches: seq<Patch>) returns (v: Verdict)
    ensures v.Clear? <==> forall f :: f in Touched(patches) ==> !Sensitive(f)
    ensures v.Flagged? ==> v.path in Touched(patches) && Sensitive(v.path)
    ensures v.Flagged? ==> (set f | f in v.touched) == Touched(patches) && |v.touched| == |Touched(patches)|
  {
    var touched := CollectTouched(patches);
    var rest := touched;
    while rest != {}
      invariant rest <= touched
      invariant forall f :: f in touched - rest ==> !Sensitive(f)
      decreases |rest|
    {
      var f :| f in rest;
      if Sensitive(f) {
        var listed := SetToList(touched);
        return Flagged(f, listed);
      }
      rest := rest - {f};
    }
    return Clear;
  }

  /**
   * `safety_agent`. On a sensitive path: not safe, one more risk flag, and
   * a HITL request naming that path with every touched path as payload.
   * Otherwise only `safety_ok` is set (to true); flags and HITL stay.
   */
  method SafetyAgent(t: Ticket)
    modifies t`safetyOk, t`riskFlags, t`hitl
    ensures !t.safetyOk <==> exists f :: f in Touched(t.patches) && Sensitive(f)
    ensures t.safetyOk ==> t.riskFlags == old(t.riskFlags) && t.hitl == old(t.hitl)
    ensures !t.safetyOk ==> t.riskFlags == old(t.riskFlags) + [SensitiveFlag]
    ensures !t.safetyOk ==>
      && t.hitl.required
      && t.hitl.reason.Some?
      && (exists f :: f in Touched(t.patches) && Sensitive(f) && t.hitl.reason.value == SensitiveReasonPrefix + f)
      && t.hitl.payload.Some?
      && (set f | f in t.hitl.payload.value) == Touched(t.patches)
  {
    var v := Scan(t.patches);
    match v
    case Flagged(f, listed) =>
      t.safetyOk := false;
      t.riskFlags := t.riskFlags + [SensitiveFlag];
      t.hitl := HITL(true, Some(SensitiveReasonPrefix + f), Some(listed));
    case Clear =>
      t.safetyOk := true;
  }

  /** Separators are not normalised and the hint is "security.py": a security package is not flagged. */
  lemma SecurityPackageNotSensitive()
    ensures !Sensitive("src/security/x.py")
  {
    var f := "src/security/x.py";
    forall i | 0 <= i < |SensitiveHints| ensures !Contains(f, SensitiveHints[i]) {
      if i == 0 {
        forall p | 0 <= p <= |f| - 11 ensures !OccursAt(f, "security.py", p) {
          var k := if p == 0 then 1 else if p == 4 then 8 else 0;
          MismatchAt(f, "security.py", p, k);
        }
      } else if i == 1 {
        MissingCharNotContained(f, ".env", 2);
      } else if i == 2 {
        forall p | 0 <= p <= |f| - 6 ensures !OccursAt(f, "secret", p) {
          var k := if p == 0 then 1 else if p == 4 then 3 else 0;
          MismatchAt(f, "secret", p, k);
        }
      } else if i == 3 {
        MissingCharNotContained(f, "token", 2);
      } else {
        MissingCharNotContained(f, "auth", 0);
      }
    }
  }

  /** Lower-casing "config/SECRET.yaml" exposes the hint "secret". */
  lemma LoweredSecretSensitive()
    ensures Sensitive(Lower("config/SECRET.yaml"))
  {
    var f := Lower("config/SECRET.yaml");
    forall k | 0 <= k < 6 ensures f[7 + k] == "secret"[k] {
      assert f[7 + k] == LowerChar("config/SECRET.yaml"[7 + k]);
    }
    assert f[7..13] == "secret";
    assert OccursAt(f, SensitiveHints[2], 7);
  }

  /** A sensitive hint in any letter case is caught, because paths are lower-cased first. */
  lemma UpperCaseSecretFlagged(patches: seq<Patch>)
    requires |patches| > 0 && "config/SECRET.yaml" in patches[|patches| - 1].filesTouched
    ensures exists f :: f in Touched(patches) && Sensitive(f)
  {
    LoweredSecretSensitive();
    assert Lower("config/SECRET.yaml") in LoweredPaths(patches[|patches| - 1].filesTouched);
  }
}
