/** The POST handler of app/api/inbox/route.ts, which receives captures from
    the browser extension: the url/title check, the removal of the data-URL
    header from a screenshot (a `data:` URL of section 3 of RFC 2397 with
    the `;base64` marker), the stored image path and the item created.  The
    generated id and the outcome of each I/O step are parameters. */
module InboxRoute {
  import opened Js
  import Db

  /** The fields of the JSON body the handler reads. */
  datatype CaptureBody = CaptureBody(url: Option<string>, title: Option<string>,
                                     selection: Option<string>, screenshotDataUrl: Option<string>)

  // ---------------------------------------------------------------------
  // The data-URL header

  const ImageScheme: string := "data:image/"
  const Base64Marker: string := ";base64,"

  predicate StartsWith(s: string, prefix: string) {
    |prefix| <= |s| && s[..|prefix|] == prefix
  }

  predicate IsLowerLetter(c: char) {
    'a' <= c <= 'z'
  }

  /** The longest run of lower-case ASCII letters at the start of `s`. */
  function LowerRun(s: string): (r: string)
    ensures r <= s
    ensures forall i :: 0 <= i < |r| ==> IsLowerLetter(r[i])
    ensures |r| < |s| ==> !IsLowerLetter(s[|r|])
  {
    if s != [] && IsLowerLetter(s[0]) then [s[0]] + LowerRun(s[1..]) else []
  }

  lemma {:induction false} LowerRunOf(letters: string, rest: string)
    requires forall i :: 0 <= i < |letters| ==> IsLowerLetter(letters[i])
    requires rest != [] && !IsLowerLetter(rest[0])
    ensures LowerRun(letters + rest) == letters
  {
    if letters != [] {
      assert (letters + rest)[1..] == letters[1..] + rest;
      LowerRunOf(letters[1..], rest);
    }
  }

  /** The length of the header `data:image/<letters>;base64,` that starts
      `s`, if one does: the pattern `^data:image\/[a-z]+;base64,`. */
  function HeaderLength(s: string): (n: Option<nat>)
    ensures n.Some? ==> StartsWith(s, ImageScheme) && n.value <= |s|
    ensures n.Some? ==> n.value == |ImageScheme| + |LowerRun(s[|ImageScheme|..])| + |Base64Marker|
    ensures n.Some? <==> (StartsWith(s, ImageScheme) && LowerRun(s[|ImageScheme|..]) != []
                          && StartsWith(s[|ImageScheme| + |LowerRun(s[|ImageScheme|..])|..], Base64Marker))
  {
    if !StartsWith(s, ImageScheme) then None
    else
      var letters := LowerRun(s[|ImageScheme|..]);
      var rest := s[|ImageScheme| + |letters|..];
      if letters != [] && StartsWith(rest, Base64Marker) then Some(|ImageScheme| + |letters| + |Base64Marker|)
      else None
  }

  /** `screenshotDataUrl.replace(/^data:image\/[a-z]+;base64,/, '')`. */
  function StripHeader(s: string): (r: string)
    ensures HeaderLength(s).None? ==> r == s
    ensures HeaderLength(s).Some? ==> r == s[HeaderLength(s).value..]
    ensures |r| <= |s|
  {
    match HeaderLength(s)
    case None => s
    case Some(n) => s[n..]
  }

  /** A base64 image `data:` URL with the given subtype. */
  function DataUrl(subtype: string, payload: string): string {
    ImageScheme + subtype + Base64Marker + payload
  }

  predicate ValidSubtype(subtype: string) {
    subtype != [] && forall i :: 0 <= i < |subtype| ==> IsLowerLetter(subtype[i])
  }

  lemma Halves(a: string, b: string)
    ensures (a + b)[..|a|] == a && (a + b)[|a|..] == b
  {
  }

  lemma DropTwice(s: string, i: nat, j: nat)
    requires i + j <= |s|
    ensures s[i..][j..] == s[i + j..]
  {
  }

  /** The header of an image `data:` URL is removed and the payload is what
      remains, whatever the payload holds (another header included). */
  lemma StripDataUrl(subtype: string, payload: string)
    requires ValidSubtype(subtype)
    ensures StripHeader(DataUrl(subtype, payload)) == payload
  {
    var s := DataUrl(subtype, payload);
    var k := |ImageScheme|;
    var after := Base64Marker + payload;
    var tail := subtype + after;
    assert s == ImageScheme + tail;
    Halves(ImageScheme, tail);
    assert StartsWith(s, ImageScheme);
    assert after[0] == ';';
    LowerRunOf(subtype, after);
    Halves(subtype, after);
    DropTwice(s, k, |subtype|);
    var rest := s[k + |subtype|..];
    assert rest == after;
    Halves(Base64Marker, payload);
    assert StartsWith(rest, Base64Marker);
    DropTwice(s, k + |subtype|, |Base64Marker|);
    assert s[k + |subtype| + |Base64Marker|..] == payload;
  }

  /** Conversely, whatever loses a header was an image `data:` URL around
      the text that remains. */
  lemma StrippedHadHeader(s: string) returns (subtype: string)
    requires HeaderLength(s).Some?
    ensures ValidSubtype(subtype) && s == DataUrl(subtype, StripHeader(s))
  {
    var k := |ImageScheme|;
    subtype := LowerRun(s[k..]);
    var n := HeaderLength(s).value;
    assert s == s[..k] + s[k..k + |subtype|] + s[k + |subtype|..n] + s[n..];
    assert s[k..k + |subtype|] == subtype;
    var rest := s[k + |subtype|..];
    assert StartsWith(rest, Base64Marker);
    assert s[k + |subtype|..n] == rest[..|Base64Marker|] == Base64Marker;
  }

  /** A string that does not start with `data:image/` is kept as it is. */
  lemma OtherStringsKept(s: string)
    requires !StartsWith(s, ImageScheme)
    ensures StripHeader(s) == s
  {
  }

  /** Only one header goes: a payload that itself starts with a header keeps it. */
  lemma StripsOneHeader(subtype: string, inner: string, payload: string)
    requires ValidSubtype(subtype) && ValidSubtype(inner)
    ensures StripHeader(DataUrl(subtype, DataUrl(inner, payload))) == DataUrl(inner, payload)
  {
    StripDataUrl(subtype, DataUrl(inner, payload));
  }

  // ---------------------------------------------------------------------
  // The handler

  /** `/captures/<itemId>.png`. */
  function ImagePath(itemId: string): (path: string)
    ensures |path| == |itemId| + 14
  {
    "/captures/" + itemId + ".png"
  }

  /** The id can be read back from the path, so distinct ids never share a file. */
  lemma ImagePathNamesItem(itemId: string)
    ensures ImagePath(itemId)[10..|ImagePath(itemId)| - 4] == itemId
  {
    var p := ImagePath(itemId);
    assert p == "/captures/" + (itemId + ".png");
    assert p[10..] == itemId + ".png";
    assert p[10..|p| - 4] == (itemId + ".png")[..|itemId|];
  }

  lemma ImagePathInjective(a: string, b: string)
    requires ImagePath(a) == ImagePath(b)
    ensures a == b
  {
    ImagePathNamesItem(a);
    ImagePathNamesItem(b);
  }

  datatype InboxResponse = BadRequest | Created(id: string) | ServerError

  /** The item the handler asks `createItem` to insert. */
  function CapturedItem(body: CaptureBody, itemId: string, rawImagePath: Option<string>): (item: Db.NewItem)
    ensures item.id == itemId && item.source == Some("browser_extension")
    ensures item.url == body.url && item.title == body.title && item.rawText == body.selection
    ensures item.rawImagePath == rawImagePath
  {
    Db.NewItem(itemId, body.url, body.title, body.selection, rawImagePath, Some("browser_extension"))
  }

  /** `POST(request)`.  `body` is the parsed JSON body, or `None` when
      `request.json()` throws or the body is JSON `null`, whose destructuring
      throws; any other JSON value that is not an object has its four fields
      absent.  `itemId` is the generated uuid; `directoryMade` says whether
      `mkdir` succeeded, `fileWritten` whether `writeFile` did, and
      `insertThrows` whether the insert failed.  Returns the response, the
      file the handler tries to write (name and base64 text), and the item
      given to the insert. */
  method Post(body: Option<CaptureBody>, itemId: string, directoryMade: bool, fileWritten: bool, insertThrows: bool)
    returns (response: InboxResponse, attempted: Option<(string, string)>, created: Option<Db.NewItem>)
    ensures body.None? ==> response == ServerError && attempted.None? && created.None?
    ensures response == BadRequest <==> body.Some? && !Truthy(body.value.url) && !Truthy(body.value.title)
    ensures created.Some? <==> body.Some? && response != BadRequest
    ensures created.Some? ==> (response == Created(itemId) <==> !insertThrows)
    ensures created.Some? && !insertThrows ==> response == Created(created.value.id)
    ensures created.Some? && insertThrows ==> response == ServerError
    ensures attempted.Some? <==> created.Some? && Truthy(body.value.screenshotDataUrl) && directoryMade
    ensures attempted.Some? ==> attempted.value == (itemId + ".png", StripHeader(body.value.screenshotDataUrl.value))
    ensures created.Some? ==> created.value == CapturedItem(body.value, itemId,
      if Truthy(body.value.screenshotDataUrl) && directoryMade && fileWritten then Some(ImagePath(itemId)) else None)
  {
    if body.None? {
      return ServerError, None, None;
    }
    var capture := body.value;
    if !Truthy(capture.url) && !Truthy(capture.title) {
      return BadRequest, None, None;
    }
    var rawImagePath: Option<string> := None;
    attempted := None;
    if Truthy(capture.screenshotDataUrl) && directoryMade {
      var base64Data := StripHeader(capture.screenshotDataUrl.value);
      var filename := itemId + ".png";
      attempted := Some((filename, base64Data));
      if fileWritten {
        rawImagePath := Some("/captures/" + filename);
        assert "/captures/" + filename == ImagePath(itemId);
      }
    }
    var item := Db.NewItem(itemId, capture.url, capture.title, capture.selection, rawImagePath, Some("browser_extension"));
    created := Some(item);
    if insertThrows {
      response := ServerError;
    } else {
      response := Created(itemId);
    }
  }

  /** A failed screenshot save still creates the item, without an image. */
  method FailedScreenshotStillCreates(body: CaptureBody, itemId: string, directoryMade: bool)
    returns (response: InboxResponse, item: Db.NewItem)
    requires Truthy(body.url) || Truthy(body.title)
    ensures response == Created(itemId)
    ensures item.id == itemId && item.rawImagePath == None && item.rawText == body.selection
  {
    var attempted, created;
    response, attempted, created := Post(Some(body), itemId, directoryMade, false, false);
    item := created.value;
  }
}
