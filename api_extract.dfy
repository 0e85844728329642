/**
 * How `generateImage` (src/services/api.ts) finds the image in a reply
 * message: four probes tried in a fixed order, the first that finds
 * something wins. The two regular expressions of the source are written
 * out as scanners with the same leftmost-match semantics.
 */
module ApiExtract {
  import opened Wrappers
  import opened Text

  /** One entry of `message.images`: its `image_url.url`, `None` when absent. */
  datatype ImageEntry = ImageEntry(url: Option<string>)

  /**
   * `choices[0].message`: `content` is `None` unless it is a string, and
   * `images` is empty when the field is absent.
   */
  datatype ApiMessage = ApiMessage(content: Option<string>, images: seq<ImageEntry>)

  const DataImagePrefix := "data:image/"

  /** `](data:image/`: the end of a markdown image's alt text and the start of its target. */
  const MarkdownTarget := "](" + DataImagePrefix

  /** Probe 1: `message.images[0].image_url.url` when it is a non-empty string. */
  function StructuredImage(images: seq<ImageEntry>): (r: Option<string>)
    ensures r.Some? <==> |images| > 0 && images[0].url.Some? && images[0].url.value != ""
    ensures r.Some? ==> r == images[0].url
  {
    if |images| > 0 && images[0].url.Some? && images[0].url.value != "" then images[0].url else None
  }

  /** Probe 2: the whole content when it starts with `data:image/`. */
  function DirectDataUri(content: string): (r: Option<string>)
    ensures r.Some? <==> StartsWith(content, DataImagePrefix)
    ensures r.Some? ==> r.value == content
  {
    if StartsWith(content, DataImagePrefix) then Some(content) else None
  }

  /** Length of the longest run of characters other than ')' starting at `j` (`[^)]+` is greedy). */
  function ParenFreeRun(s: string, j: nat): (n: nat)
    requires j <= |s|
    ensures j + n <= |s|
    ensures forall k :: j <= k < j + n ==> s[k] != ')'
    ensures j + n == |s| || s[j + n] == ')'
    decreases |s| - j
  {
    if j < |s| && s[j] != ')' then 1 + ParenFreeRun(s, j + 1) else 0
  }

  /** `\]\((data:image\/[^)]+)\)` matched at `j`, giving the capture. */
  function MarkdownTailAt(s: string, j: nat): (r: Option<string>)
    requires j <= |s|
    ensures r.Some? ==> StartsWith(r.value, DataImagePrefix) && |r.value| > |DataImagePrefix|
    ensures r.Some? ==> forall k :: 0 <= k < |r.value| ==> r.value[k] != ')'
    ensures r.Some? ==> OccursAt(s, "](" + r.value + ")", j)
  {
    if OccursAt(s, MarkdownTarget, j) then
      var start := j + 2;
      var runStart := j + |MarkdownTarget|;
      var n := ParenFreeRun(s, runStart);
      if n > 0 && runStart + n < |s| then
        var u := s[start..runStart + n];
        assert && StartsWith(u, DataImagePrefix) && |u| > |DataImagePrefix|
               && (forall k :: 0 <= k < |u| ==> u[k] != ')')
               && OccursAt(s, "](" + u + ")", j) by {
          MarkdownTailShape(s, j, n);
        }
        Some(u)
      else None
    else None
  }

  /** The capture of a tail match at `j` whose `[^)]+` run has length `n` has the shape the tail promises. */
  lemma MarkdownTailShape(s: string, j: nat, n: nat)
    requires OccursAt(s, MarkdownTarget, j)
    requires 0 < n && j + |MarkdownTarget| + n < |s| && s[j + |MarkdownTarget| + n] == ')'
    requires forall k :: j + |MarkdownTarget| <= k < j + |MarkdownTarget| + n ==> s[k] != ')'
    ensures var u := s[j + 2..j + |MarkdownTarget| + n];
      && StartsWith(u, DataImagePrefix) && |u| > |DataImagePrefix|
      && (forall k :: 0 <= k < |u| ==> u[k] != ')')
      && OccursAt(s, "](" + u + ")", j)
  {
    var m := j + |MarkdownTarget|;
    var u := s[j + 2..m + n];
    assert s[j..m] == MarkdownTarget;
    assert u[..|DataImagePrefix|] == s[j + 2..m] == MarkdownTarget[2..] == DataImagePrefix;
    assert ')' !in DataImagePrefix;
    forall k | 0 <= k < |u| ensures u[k] != ')' {
      if k < |DataImagePrefix| {
        assert u[k] == DataImagePrefix[k];
      } else {
        assert u[k] == s[j + 2 + k];
      }
    }
    assert s[j..j + 2] == "](";
    assert s[j..m + n + 1] == s[j..j + 2] + u + [s[m + n]];
  }

  /** The lazy `.*?` of the alt text: the first `j` from which the tail matches, never crossing a line terminator. */
  function MarkdownLazy(s: string, j: nat): (r: Option<string>)
    requires j <= |s|
    ensures r.Some? ==> StartsWith(r.value, DataImagePrefix) && |r.value| > |DataImagePrefix|
    ensures r.Some? ==> forall k :: 0 <= k < |r.value| ==> r.value[k] != ')'
    ensures r.Some? ==> exists k :: j <= k && OccursAt(s, "](" + r.value + ")", k)
    decreases |s| - j
  {
    match MarkdownTailAt(s, j)
    case Some(u) => Some(u)
    case None =>
      if j < |s| && !IsLineTerminator(s[j]) then MarkdownLazy(s, j + 1) else None
  }

  /** `!\[.*?\]\((data:image\/[^)]+)\)` matched starting at `i`. */
  function MarkdownAt(s: string, i: nat): (r: Option<string>)
    requires i <= |s|
    ensures r.Some? ==> StartsWith(r.value, DataImagePrefix) && |r.value| > |DataImagePrefix|
    ensures r.Some? ==> forall k :: 0 <= k < |r.value| ==> r.value[k] != ')'
    ensures r.Some? ==> exists k :: OccursAt(s, "](" + r.value + ")", k)
  {
    if OccursAt(s, "![", i) then MarkdownLazy(s, i + 2) else None
  }

  /** The position of the leftmost match at or after `i`, or `|s| + 1` when there is none. */
  function FirstMarkdown(s: string, i: nat): (p: nat)
    requires i <= |s|
    ensures i <= p <= |s| + 1
    ensures p <= |s| ==> MarkdownAt(s, p).Some?
    ensures forall q :: i <= q < p && q <= |s| ==> MarkdownAt(s, q).None?
    decreases |s| - i
  {
    if MarkdownAt(s, i).Some? then i
    else if i < |s| then FirstMarkdown(s, i + 1)
    else |s| + 1
  }

  /** The leftmost match at or after `i`. */
  function MarkdownFrom(s: string, i: nat): (r: Option<string>)
    requires i <= |s|
    ensures r.Some? ==> StartsWith(r.value, DataImagePrefix) && |r.value| > |DataImagePrefix|
    ensures r.Some? ==> forall k :: 0 <= k < |r.value| ==> r.value[k] != ')'
    ensures r.Some? ==> exists k :: OccursAt(s, "](" + r.value + ")", k)
    ensures r.Some? ==> exists p :: i <= p <= |s| && MarkdownAt(s, p) == r && forall q :: i <= q < p ==> MarkdownAt(s, q).None?
    ensures r.None? ==> forall p :: i <= p <= |s| ==> MarkdownAt(s, p).None?
  {
    var p := FirstMarkdown(s, i);
    if p <= |s| then MarkdownAt(s, p) else None
  }

  /** Probe 3: the capture of the first markdown image `![...](data:image/...)`. */
  function MarkdownImage(content: string): Option<string> {
    MarkdownFrom(content, 0)
  }

  /** The character class `[a-zA-Z0-9+/;,=]`. */
  predicate IsBase64UriChar(c: char) {
    ('a' <= c <= 'z') || ('A' <= c <= 'Z') || ('0' <= c <= '9')
    || c == '+' || c == '/' || c == ';' || c == ',' || c == '='
  }

  /** Length of the longest run of class characters starting at `j`. */
  function UriCharRun(s: string, j: nat): (n: nat)
    requires j <= |s|
    ensures j + n <= |s|
    ensures forall k :: j <= k < j + n ==> IsBase64UriChar(s[k])
    ensures j + n == |s| || !IsBase64UriChar(s[j + n])
    decreases |s| - j
  {
    if j < |s| && IsBase64UriChar(s[j]) then 1 + UriCharRun(s, j + 1) else 0
  }

  /** `(data:image\/[a-zA-Z0-9+/;,=]+)` matched at `i`. */
  function BareAt(s: string, i: nat): (r: Option<string>)
    requires i <= |s|
    ensures r.Some? <==> OccursAt(s, DataImagePrefix, i) && i + |DataImagePrefix| < |s| && IsBase64UriChar(s[i + |DataImagePrefix|])
  {
    if OccursAt(s, DataImagePrefix, i) then
      var n := UriCharRun(s, i + |DataImagePrefix|);
      if n > 0 then Some(s[i..i + |DataImagePrefix| + n]) else None
    else None
  }

  /** The position of the leftmost bare match at or after `i`, or `|s| + 1` when there is none. */
  function FirstBare(s: string, i: nat): (p: nat)
    requires i <= |s|
    ensures i <= p <= |s| + 1
    ensures p <= |s| ==> BareAt(s, p).Some?
    ensures forall q :: i <= q < p && q <= |s| ==> BareAt(s, q).None?
    decreases |s| - i
  {
    if BareAt(s, i).Some? then i
    else if i < |s| then FirstBare(s, i + 1)
    else |s| + 1
  }

  /** The leftmost bare match at or after `i`. */
  function BareFrom(s: string, i: nat): (r: Option<string>)
    requires i <= |s|
    ensures r.Some? ==> exists p :: i <= p <= |s| && BareAt(s, p) == r && forall q :: i <= q < p ==> BareAt(s, q).None?
    ensures r.None? ==> forall p :: i <= p <= |s| ==> BareAt(s, p).None?
  {
    var p := FirstBare(s, i);
    if p <= |s| then BareAt(s, p) else None
  }

  /** Probe 4: the first bare `data:image/` run. */
  function BareImage(content: string): Option<string> {
    BareFrom(content, 0)
  }

  /** A bare capture is `data:image/` followed by a maximal, non-empty run of class characters, found in the content. */
  lemma BareCaptureShape(s: string, i: nat)
    requires i <= |s| && BareAt(s, i).Some?
    ensures var u := BareAt(s, i).value;
      && StartsWith(u, DataImagePrefix) && |u| > |DataImagePrefix|
      && (forall k :: |DataImagePrefix| <= k < |u| ==> IsBase64UriChar(u[k]))
      && OccursAt(s, u, i)
      && (i + |u| == |s| || !IsBase64UriChar(s[i + |u|]))
  {
    var n := UriCharRun(s, i + |DataImagePrefix|);
    var u := BareAt(s, i).value;
    assert u == s[i..i + |DataImagePrefix| + n];
    assert u[..|DataImagePrefix|] == s[i..i + |DataImagePrefix|];
  }

  /** The image of a reply message, by the first probe that finds one (at most one URI). */
  function ExtractedImage(m: ApiMessage): Option<string> {
    var structured := StructuredImage(m.images);
    if structured.Some? then structured
    else if m.content.None? then None
    else
      var c := m.content.value;
      if DirectDataUri(c).Some? then DirectDataUri(c)
      else if MarkdownImage(c).Some? then MarkdownImage(c)
      else BareImage(c)
  }

  /** The imperative probe chain: `imageUrl` is reassigned by each probe that runs while it is still empty. */
  method ExtractImageUrl(m: ApiMessage) returns (imageUrl: Option<string>)
    ensures imageUrl == ExtractedImage(m)
  {
    imageUrl := None;
    if |m.images| > 0 && m.images[0].url.Some? && m.images[0].url.value != "" {
      imageUrl := m.images[0].url;
    }
    if imageUrl.None? && m.content.Some? && StartsWith(m.content.value, DataImagePrefix) {
      imageUrl := m.content;
    }
    if imageUrl.None? && m.content.Some? {
      var markdown := MarkdownFrom(m.content.value, 0);
      if markdown.Some? {
        imageUrl := markdown;
      }
    }
    if imageUrl.None? && m.content.Some? {
      var bare := BareFrom(m.content.value, 0);
      if bare.Some? {
        imageUrl := bare;
      }
    }
  }

  lemma MarkdownCaptureOccurs(c: string)
    requires MarkdownImage(c).Some?
    ensures StartsWith(MarkdownImage(c).value, DataImagePrefix)
    ensures exists k :: OccursAt(c, MarkdownImage(c).value, k)
  {
    var u := MarkdownImage(c).value;
    var k :| OccursAt(c, "](" + u + ")", k);
    OccursInner(c, "](", u, ")", k);
  }

  lemma BareCaptureOccurs(c: string)
    requires BareImage(c).Some?
    ensures StartsWith(BareImage(c).value, DataImagePrefix)
    ensures exists k :: OccursAt(c, BareImage(c).value, k)
  {
    var p :| 0 <= p <= |c| && BareAt(c, p) == BareImage(c);
    BareCaptureShape(c, p);
  }

  /** Anything the text probes find starts with `data:image/` and occurs in the content. */
  lemma TextProbesYieldDataUris(m: ApiMessage)
    requires StructuredImage(m.images).None? && ExtractedImage(m).Some?
    ensures m.content.Some?
    ensures StartsWith(ExtractedImage(m).value, DataImagePrefix)
    ensures exists k :: OccursAt(m.content.value, ExtractedImage(m).value, k)
  {
    var c := m.content.value;
    if DirectDataUri(c).Some? {
      assert OccursAt(c, c, 0);
    } else if MarkdownImage(c).Some? {
      MarkdownCaptureOccurs(c);
    } else {
      BareCaptureOccurs(c);
    }
  }

  /** The last probe is a catch-all: content holding `data:image/` and one class character always yields an image. */
  lemma BareFallbackFindsImage(m: ApiMessage, i: nat)
    requires m.content.Some?
    requires i + |DataImagePrefix| < |m.content.value|
    requires OccursAt(m.content.value, DataImagePrefix, i)
    requires IsBase64UriChar(m.content.value[i + |DataImagePrefix|])
    ensures ExtractedImage(m).Some?
  {
    var c := m.content.value;
    assert BareAt(c, i).Some?;
  }

  /** Without a structured image, a reply whose text never mentions `data:image/` yields nothing. */
  lemma NoDataUriNoImage(m: ApiMessage)
    requires StructuredImage(m.images).None?
    requires m.content.Some? ==> !Contains(m.content.value, DataImagePrefix)
    ensures ExtractedImage(m).None?
  {
    if ExtractedImage(m).Some? {
      TextProbesYieldDataUris(m);
      var c := m.content.value;
      var u := ExtractedImage(m).value;
      var k :| OccursAt(c, u, k);
      assert c[k..k + |DataImagePrefix|] == u[..|DataImagePrefix|];
      assert OccursAt(c, DataImagePrefix, k);
      assert false;
    }
  }

  /** The structured list outranks any URI in the text. */
  lemma StructuredImageWins(m: ApiMessage)
    requires StructuredImage(m.images).Some?
    ensures ExtractedImage(m) == m.images[0].url
  {
  }
}
