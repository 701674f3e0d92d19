/** The image-URI acceptance of `build_and_push_container`
    (deploy.py:78-91): the build script's standard output is stripped, split
    into lines, and its stripped last line is the image URI, returned only
    when it looks like an ECR or HTTPS URI. Running the script is left out;
    its output is the input here. */
module ImageUri {
  import opened Options
  import opened Text

  const Newline := "\n"

  /** The basic check: `https://` prefix, or an ECR registry host, or an AWS
      domain followed by a path. */
  predicate LooksLikeImageUri(u: string) {
    StartsWith(u, "https://") || Contains(u, ".dkr.ecr.") || Contains(u, ".amazonaws.com/")
  }

  /** `stdout.strip().split('\n')[-1].strip()` */
  function LastLine(stdout: string): (line: string)
    ensures IsStripped(line)
    ensures !Contains(line, Newline)
  {
    var last := Last(Split(Strip(stdout), Newline));
    SplitLastFree(Strip(stdout), Newline);
    StripKeepsFree(last, Newline);
    Strip(last)
  }

  lemma LooksLikeNonEmpty(u: string)
    requires LooksLikeImageUri(u)
    ensures u != ""
  {
  }

  /** The URI the build step returns, or `None`. */
  function ImageUriFromOutput(stdout: string): (r: Option<string>)
    ensures r.Some? <==> LooksLikeImageUri(LastLine(stdout))
    ensures r.Some? ==> r.value == LastLine(stdout) && r.value != ""
  {
    var uri := LastLine(stdout);
    if LooksLikeImageUri(uri) then
      LooksLikeNonEmpty(uri);
      Some(uri)
    else None
  }

  /** An accepted URI is a single clean line. */
  lemma AcceptedUriIsOneLine(stdout: string)
    requires ImageUriFromOutput(stdout).Some?
    ensures var u := ImageUriFromOutput(stdout).value;
            u != "" && IsStripped(u) && !Contains(u, Newline)
  {
  }

  /** Stripping text that ends in a non-space character only drops a
      whitespace prefix. */
  lemma StripKeepsSuffix(s: string)
    requires |s| > 0 && !IsSpace(s[|s| - 1])
    ensures Strip(s) == s[StripStart(s)..]
  {
    var r := Strip(s);
    assert StripStart(s) + |r| == |s|;
  }

  /** The last piece of the stripped output is the clean last line. */
  lemma LastPieceOfOutput(before: string, u: string)
    requires u != "" && IsStripped(u) && !Contains(u, Newline)
    ensures Last(Split(Strip(before + Newline + u), Newline)) == u
  {
    var s := before + Newline + u;
    assert s[|s| - 1] == u[|u| - 1];
    StripKeepsSuffix(s);
    var i := StripStart(s);
    if i <= |before| {
      PieceWithinBefore(before, u, i);
    } else {
      PieceIsWhole(before, u, i);
    }
  }

  lemma PieceIsWhole(before: string, u: string, i: nat)
    requires u != "" && IsStripped(u) && !Contains(u, Newline)
    requires |before| < i <= |before| + 1 + |u|
    requires forall k :: 0 <= k < i ==> IsSpace((before + Newline + u)[k])
    ensures Last(Split((before + Newline + u)[i..], Newline)) == u
  {
    var s := before + Newline + u;
    assert s[|before| + 1] == u[0];
    assert !IsSpace(s[|before| + 1]);
    assert i == |before| + 1;
    assert s[i..] == u;
    SplitPieces(u, Newline);
  }

  lemma PieceWithinBefore(before: string, u: string, i: nat)
    requires i <= |before| && !Contains(u, Newline)
    ensures Last(Split((before + Newline + u)[i..], Newline)) == u
  {
    assert (before + Newline + u)[i..] == before[i..] + Newline + u;
    LastPieceAfterSep(before[i..], '\n', u);
  }

  /** Whatever the script prints first, a clean URI on the last line is what
      the build step returns. */
  lemma LastLineRoundTrip(before: string, u: string)
    requires u != "" && IsStripped(u) && !Contains(u, Newline) && LooksLikeImageUri(u)
    ensures ImageUriFromOutput(before + Newline + u) == Some(u)
    ensures ImageUriFromOutput(u) == Some(u)
  {
    StripOfStripped(u);
    LastPieceOfOutput(before, u);
    SplitPieces(u, Newline);
  }
}
