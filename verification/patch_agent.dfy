/**
 * The fixed-rule patch stage (src/se_assistant/nodes/patch_agent.py): if
 * the sandbox pricing module still truncates, rewrite the truncating
 * return into `round(discounted, 2)`, write the file and record a Patch.
 * Files are a map from relative path to content; `unified_diff` is a
 * parameter.
 */
module PatchNode {
  import opened Wrappers
  import opened Strings
  import opened State

  const Target := "src/sandbox/pricing.py"

  /** The text whose absence means "nothing to patch (or already fixed)". */
  const Marker := "int(discounted * 100"

  /** The truncating return statement and its replacement. */
  const Truncation := "return float(int(discounted * 100) / 100)"
  const Rounding := "return round(discounted, 2)"

  const FixSummary := "Fix rounding bug in apply_discount by using round(..., 2) instead of truncation."

  /** What the stage finds: no target file (`read_text` raises), nothing to patch, or new content. */
  datatype PatchOutcome = MissingTarget | NothingToPatch | Rewritten(content: string)

  /** The marker sits inside the truncating return, 13 characters in. */
  lemma MarkerInTruncation()
    ensures OccursAt(Truncation, Marker, 13)
  {
    forall k | 0 <= k < |Marker| ensures Truncation[13 + k] == Marker[k] {
    }
    assert Truncation[13..13 + |Marker|] == Marker;
  }

  /** The decision and the rewrite of `patch_agent`. */
  function PricingFix(files: map<string, string>): (o: PatchOutcome)
    ensures o.MissingTarget? <==> Target !in files
    ensures o.NothingToPatch? <==> Target in files && !Contains(files[Target], Marker)
    ensures o.Rewritten? ==> Contains(files[Target], Marker)
    ensures o.Rewritten? && !Contains(files[Target], Truncation) ==> o.content == files[Target]
  {
    if Target !in files then MissingTarget
    else
      var current := files[Target];
      if !Contains(current, Marker) then NothingToPatch
      else
        assert !Contains(current, Truncation) ==> ReplaceAll(current, Truncation, Rounding) == current by {
          if !Contains(current, Truncation) { ReplaceAbsent(current, Truncation, Rounding); }
        }
        Rewritten(ReplaceAll(current, Truncation, Rounding))
  }

  /** The patch `patch_agent` records for a rewrite. */
  function FixPatch(patchId: string, diffText: string): (p: Patch)
    ensures WellFormedPatch(p) && p.filesTouched == [Target] && p.confidence == 0.8
  {
    Patch(patchId, FixSummary, diffText, [Target], 0.8)
  }

  /**
   * `patch_agent`. A missing target makes `read_text` raise, which ends the
   * run (`raised`). With the marker absent nothing happens. Otherwise the
   * new content is written, even when it equals the old, and one patch is
   * appended.
   */
  method PatchAgent(t: Ticket, files: map<string, string>, diff: (string, string, string) -> string, patchId: string)
    returns (files': map<string, string>, raised: bool)
    modifies t`patches
    ensures raised <==> Target !in files
    ensures match PricingFix(files)
      case Rewritten(content) =>
        && files' == files[Target := content]
        && t.patches == old(t.patches) + [FixPatch(patchId, diff(files[Target], content, Target))]
      case _ => files' == files && t.patches == old(t.patches)
  {
    files' := files;
    raised := false;
    if Target !in files {
      raised := true;
      return;
    }
    var current := files[Target];
    if !Contains(current, Marker) {
      return;
    }
    var fixed := ReplaceAll(current, Truncation, Rounding);
    var d := diff(current, fixed, Target);
    files' := files[Target := fixed];
    t.patches := t.patches + [FixPatch(patchId, d)];
  }

  /**
   * A marker without the exact truncating return: the content comes back
   * unchanged, yet the stage still counts it as a rewrite (and records a patch).
   */
  lemma MarkerWithoutTruncation(files: map<string, string>)
    requires Target in files && Contains(files[Target], Marker) && !Contains(files[Target], Truncation)
    ensures PricingFix(files) == Rewritten(files[Target])
  {
  }

  /** No occurrence of the marker can overlap the replacement text. */
  lemma MarkerAvoidsRounding(a: string, b: string, p: int)
    requires 0 <= p && p + |Marker| <= |a| + |Rounding| + |b|
    requires |a| < p + |Marker| && p < |a| + |Rounding|
    ensures !OccursAt(a + Rounding + b, Marker, p)
  {
    var s := a + Rounding + b;
    var w := s[p..p + |Marker|];
    if p <= |a| {
      // The window covers the first character of the replacement, an 'r'.
      forall k | 0 <= k < |Marker| ensures Marker[k] != 'r' {
      }
      assert w[|a| - p] == s[|a|] == Rounding[0] == 'r';
    } else if p + |Marker| <= |a| + |Rounding| {
      // The window lies inside the replacement, which has no '*'.
      assert Marker[15] == '*' && w[15] == Rounding[p + 15 - |a|] != '*';
    } else {
      // The window covers the last character of the replacement, a ')'.
      var e := |a| + |Rounding| - 1;
      forall k | 0 <= k < |Marker| ensures Marker[k] != ')' {
      }
      assert w[e - p] == s[e] == Rounding[|Rounding| - 1] == ')';
    }
  }

  /** The text before and after the only marker-holding return contains no marker. */
  lemma MarkerOnlyInside(a: string, b: string)
    requires forall p :: OccursAt(a + Truncation + b, Marker, p) ==> p == |a| + 13
    ensures !Contains(a, Marker) && !Contains(b, Marker)
  {
    var s := a + Truncation + b;
    forall p | 0 <= p <= |a| - |Marker| ensures !OccursAt(a, Marker, p) {
      assert s[p..p + |Marker|] == a[p..p + |Marker|];
      assert !OccursAt(s, Marker, p);
    }
    forall p | 0 <= p <= |b| - |Marker| ensures !OccursAt(b, Marker, p) {
      var q := |a| + |Truncation| + p;
      assert s[q..q + |Marker|] == b[p..p + |Marker|];
      assert !OccursAt(s, Marker, q);
    }
  }

  /** With the marker only inside it, the return after `a` is the first truncating return. */
  lemma FirstTruncationAfter(a: string, b: string)
    requires forall p :: OccursAt(a + Truncation + b, Marker, p) ==> p == |a| + 13
    ensures OccursAt(a + Truncation + b, Truncation, |a|)
    ensures forall j :: 0 <= j < |a| ==> !OccursAt(a + Truncation + b, Truncation, j)
  {
    var s := a + Truncation + b;
    assert s[|a|..|a| + |Truncation|] == Truncation;
    forall j | 0 <= j < |a| ensures !OccursAt(s, Truncation, j) {
      if OccursAt(s, Truncation, j) {
        forall k | 0 <= k < |Marker| ensures s[j + 13 + k] == Marker[k] {
          assert s[j..j + |Truncation|][13 + k] == s[j + 13 + k];
          assert Truncation[13 + k] == Marker[k] by { MarkerInTruncation(); }
        }
        assert s[j + 13..j + 13 + |Marker|] == Marker;
        assert OccursAt(s, Marker, j + 13);
      }
    }
  }

  /** With the marker only inside the one truncating return, `replace` rewrites exactly that return. */
  lemma RewritesTheOneTruncation(a: string, b: string)
    requires forall p :: OccursAt(a + Truncation + b, Marker, p) ==> p == |a| + 13
    requires !Contains(b, Marker)
    ensures ReplaceAll(a + Truncation + b, Truncation, Rounding) == a + Rounding + b
  {
    var s := a + Truncation + b;
    FirstTruncationAfter(a, b);
    ReplaceAtFirst(s, Truncation, Rounding, |a|);
    assert s[..|a|] == a;
    assert s[|a| + |Truncation|..] == b;
    assert !Contains(b, Truncation) by {
      if Contains(b, Truncation) {
        MarkerInTruncation();
        OccursAtContains(Truncation, Marker, 13);
        ContainsTransitive(b, Truncation, Marker);
      }
    }
    ReplaceAbsent(b, Truncation, Rounding);
  }

  /** Rewriting cannot create a marker: one is left only if the surrounding text had one. */
  lemma NoMarkerAfterRewrite(a: string, b: string)
    requires !Contains(a, Marker) && !Contains(b, Marker)
    ensures !Contains(a + Rounding + b, Marker)
  {
    var t := a + Rounding + b;
    forall p | 0 <= p <= |t| - |Marker| ensures !OccursAt(t, Marker, p) {
      if p + |Marker| <= |a| {
        assert a[p..p + |Marker|] == t[p..p + |Marker|];
        assert !OccursAt(a, Marker, p);
      } else if p < |a| + |Rounding| {
        MarkerAvoidsRounding(a, b, p);
      } else {
        var q := p - |a| - |Rounding|;
        assert b[q..q + |Marker|] == t[p..p + |Marker|];
        assert !OccursAt(b, Marker, q);
      }
    }
  }

  /**
   * A rerun is a no-op: when the file holds one truncating return and every
   * occurrence of the marker lies inside it, the stage rewrites exactly
   * that return, and on the rewritten file it finds nothing to patch.
   */
  lemma RerunIsNoOp(a: string, b: string, files: map<string, string>)
    requires Target in files && files[Target] == a + Truncation + b
    requires forall p :: OccursAt(a + Truncation + b, Marker, p) ==> p == |a| + 13
    ensures PricingFix(files) == Rewritten(a + Rounding + b)
    ensures PricingFix(files[Target := a + Rounding + b]) == NothingToPatch
  {
    MarkerInTruncation();
    assert OccursAt(a + Truncation + b, Marker, |a| + 13) by {
      var s := a + Truncation + b;
      forall k | 0 <= k < |Marker| ensures s[|a| + 13 + k] == Marker[k] {
        assert s[|a| + 13 + k] == Truncation[13 + k];
      }
      assert s[|a| + 13..|a| + 13 + |Marker|] == Marker;
    }
    OccursAtContains(a + Truncation + b, Marker, |a| + 13);
    MarkerOnlyInside(a, b);
    RewritesTheOneTruncation(a, b);
    NoMarkerAfterRewrite(a, b);
  }
}
