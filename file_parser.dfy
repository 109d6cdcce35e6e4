/** `FileParser.stop_with`: the filter that keeps static assets and directory paths out of the
    captured traffic. */
module FileParser {
  import opened Strings

  /** The suffixes checked, in order: images, icons, style sheets, scripts and a trailing `/`. */
  const StopSuffixes: seq<string> := [".png", ".ico", ".gif", ".css", ".js", "/"]

  /** A path is skipped when it ends with one of the suffixes. */
  predicate Skipped(path: string) {
    exists i :: 0 <= i < |StopSuffixes| && EndsWith(path, StopSuffixes[i])
  }

  /** The suffixes from position `k` on, tried in order; the first match answers. */
  function StopFrom(uri: string, k: nat): (r: bool)
    requires k <= |StopSuffixes|
    ensures r <==> exists i :: k <= i < |StopSuffixes| && EndsWith(uri, StopSuffixes[i])
    decreases |StopSuffixes| - k
  {
    if k == |StopSuffixes| then false
    else if EndsWith(uri, StopSuffixes[k]) then true
    else StopFrom(uri, k + 1)
  }

  /** `stop_with(uri)`: true exactly for the paths to skip; a path with no match gives the
      source's falsy `None`, here `false`. */
  function StopWith(uri: string): (r: bool)
    ensures r <==> Skipped(uri)
  {
    StopFrom(uri, 0)
  }

  lemma LastCharDiffers(s: string, suffix: string)
    requires |s| > 0 && |suffix| > 0 && s[|s| - 1] != suffix[|suffix| - 1]
    ensures !EndsWith(s, suffix)
  {
    if |suffix| <= |s| {
      assert s[|s| - |suffix|..][|suffix| - 1] == s[|s| - 1];
    }
  }

  /** A path ending with a character no suffix ends with is kept. */
  lemma KeptByLastChar(path: string)
    requires |path| > 0
    requires forall i :: 0 <= i < |StopSuffixes| ==> path[|path| - 1] != StopSuffixes[i][|StopSuffixes[i]| - 1]
    ensures !Skipped(path)
  {
    forall i | 0 <= i < |StopSuffixes|
      ensures !EndsWith(path, StopSuffixes[i])
    {
      LastCharDiffers(path, StopSuffixes[i]);
    }
  }

  /** A style sheet and a directory are skipped; an endpoint is kept, and so are a `.json` path
      (though it ends in `s` plus one letter) and a `.jsx` path (though it contains `.js`). */
  lemma SkippedExamples()
    ensures Skipped("/static/site.css")
    ensures Skipped("/api/")
    ensures !Skipped("/api/login")
    ensures !Skipped("/data.json")
    ensures !Skipped("/app.jsx")
  {
    assert EndsWith("/static/site.css", StopSuffixes[3]);
    assert EndsWith("/api/", StopSuffixes[5]);
    KeptByLastChar("/api/login");
    KeptByLastChar("/data.json");
    KeptByLastChar("/app.jsx");
  }
}
