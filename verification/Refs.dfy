/** Git refs and workflow paths: what the poller dispatches, what GitHub's
    verified claims carry back, and what the resolver compares. */
module Refs {

  predicate HasPrefix(s: string, prefix: string) { prefix <= s }

  function TrimPrefix(s: string, prefix: string): string {
    if prefix <= s then s[|prefix|..] else s
  }

  /** The part of s before the first c, or all of s. */
  function UpTo(s: string, c: char): string {
    if s == "" || s[0] == c then "" else [s[0]] + UpTo(s[1..], c)
  }

  lemma {:induction false} UpToFirst(s: string, c: char)
    ensures UpTo(s, c) <= s && c !in UpTo(s, c)
    ensures c in s ==> |UpTo(s, c)| < |s| && s[|UpTo(s, c)|] == c
    ensures c !in s ==> UpTo(s, c) == s
  {
    if s != "" && s[0] != c {
      UpToFirst(s[1..], c);
      assert s == [s[0]] + s[1..];
    }
  }

  lemma {:induction false} UpToSkips(a: string, b: string, c: char)
    requires c !in a
    ensures UpTo(a + [c] + b, c) == a
  {
    if a == "" {
      assert (a + [c] + b)[0] == c;
    } else {
      assert (a + [c] + b)[1..] == a[1..] + [c] + b;
      UpToSkips(a[1..], b, c);
    }
  }

  function NormalizeRef(settingRef: string): string {
    var ref := if settingRef == "" then "main" else settingRef;
    if HasPrefix(ref, "refs/") then ref else "refs/heads/" + ref
  }

  function ParseWorkflowRef(repo: string, workflowRef: string): string {
    TrimPrefix(UpTo(workflowRef, '@'), repo + "/")
  }

  /** GitHub's workflow_ref claim: "{repo}/{path}@{ref}". */
  function WorkflowClaim(repo: string, path: string, ref: string): string {
    repo + "/" + path + "@" + ref
  }

  /** Normalising twice changes nothing, and every normal form is a full ref. */
  lemma NormalizeRefIdempotent(r: string)
    ensures HasPrefix(NormalizeRef(r), "refs/")
    ensures NormalizeRef(NormalizeRef(r)) == NormalizeRef(r)
    ensures NormalizeRef(r) == r <==> HasPrefix(r, "refs/")
  {
    var n := NormalizeRef(r);
    assert "refs/heads/"[..5] == "refs/";
    if !HasPrefix(r, "refs/") {
      assert n[..5] == "refs/";
      assert n != "";
    }
  }

  /** The ref the poller dispatches for a pipeline's ref setting. */
  function DispatchRef(settingRef: string): string {
    if settingRef == "" then "main" else settingRef
  }

  /** What the parser makes of any text cut at its first '@'. */
  lemma ParseCutsAtFirstAt(repo: string, head: string, rest: string)
    requires '@' !in head
    ensures ParseWorkflowRef(repo, head + ['@'] + rest) == TrimPrefix(head, repo + "/")
  {
    UpToSkips(head, rest, '@');
  }

  /** The head of the claim: the text before its first '@'. */
  function ClaimHead(repo: string, path: string): string {
    if '@' in repo then UpTo(repo, '@') else repo + "/" + UpTo(path, '@')
  }

  lemma ClaimSplits(repo: string, path: string, ref: string) returns (rest: string)
    ensures '@' !in ClaimHead(repo, path)
    ensures WorkflowClaim(repo, path, ref) == ClaimHead(repo, path) + ['@'] + rest
  {
    if '@' in repo {
      rest := CutAt(repo) + ("/" + path + "@" + ref);
      CutAtSplits(repo);
    } else if '@' in path {
      rest := CutAt(path) + ("@" + ref);
      CutAtSplits(path);
      UpToFirst(repo, '@');
    } else {
      rest := ref;
      UpToFirst(path, '@');
    }
    hide UpTo, CutAt;
  }

  /** What follows the first '@'. */
  function CutAt(s: string): string {
    if s == "" then "" else if s[0] == '@' then s[1..] else CutAt(s[1..])
  }

  lemma {:induction false} CutAtSplits(s: string)
    requires '@' in s
    ensures s == UpTo(s, '@') + ['@'] + CutAt(s) && '@' !in UpTo(s, '@')
  {
    if s[0] == '@' {
      assert s == ['@'] + s[1..];
    } else {
      CutAtSplits(s[1..]);
      assert s == [s[0]] + s[1..];
    }
  }

  /** The parser undoes the claim exactly when neither part holds an '@' — or in
      the one coincidence where the repo name does and the path is its own head. */
  lemma ParseUndoesClaim(repo: string, path: string, ref: string)
    ensures ParseWorkflowRef(repo, WorkflowClaim(repo, path, ref)) == path
       <==> ('@' !in repo && '@' !in path) || ('@' in repo && path == UpTo(repo, '@'))
  {
    var rest := ClaimSplits(repo, path, ref);
    ParseCutsAtFirstAt(repo, ClaimHead(repo, path), rest);
    UpToFirst(repo, '@');
    UpToFirst(path, '@');
    if '@' !in repo {
      TrimUndoesConcat(repo + "/", UpTo(path, '@'));
    }
  }

  lemma TrimUndoesConcat(prefix: string, s: string)
    ensures TrimPrefix(prefix + s, prefix) == s
  {
  }

  datatype GitRef = Branch(name: string) | Tag(name: string)

  /** The full form GitHub's ref claim carries. */
  function Claimed(g: GitRef): string {
    match g
    case Branch(b) => "refs/heads/" + b
    case Tag(t) => "refs/tags/" + t
  }

  /** A bare setting names a branch to the resolver whatever GitHub resolved it
      to: the callback's ref is accepted iff the setting was already full, and
      equal to the claim, or named the branch. */
  lemma CallbackRefAccepted(setting: string, g: GitRef)
    ensures NormalizeRef(setting) == Claimed(g) <==>
      if HasPrefix(setting, "refs/") then setting == Claimed(g)
      else g == Branch(DispatchRef(setting))
  {
    var ref := DispatchRef(setting);
    if !HasPrefix(setting, "refs/") {
      assert !HasPrefix(ref, "refs/");
      assert NormalizeRef(setting) == "refs/heads/" + ref;
      match g
      case Branch(b) =>
        if "refs/heads/" + ref == "refs/heads/" + b {
          assert ref == ("refs/heads/" + ref)[11..] == b;
        }
      case Tag(t) =>
        assert ("refs/heads/" + ref)[5] == 'h' && ("refs/tags/" + t)[5] == 't';
    }
  }
}
