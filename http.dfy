/**
 * What a `fetch` call can give back, and the HTML sniff the client applies to
 * responses that should hold JSON or a binary artifact (app.js:138-139, 160-161,
 * 345-346, 370-371).
 */
module Http {
  import opened Text

  /** The body of a response: its text, or the reason `text()` rejected. */
  datatype Body = Text(text: string) | Unreadable(reason: string)

  /** A response as the client sees it: status, `content-type` header ("" when absent), body. */
  datatype Response = Response(status: int, contentType: string, body: Body)

  /** The settled promise of one `fetch`: a response, or the message of the error it rejected with. */
  datatype Fetched = Received(response: Response) | Rejected(reason: string)

  /** `Response.ok`. */
  predicate IsOk(status: int) {
    200 <= status <= 299
  }

  /** The artifact wrapper sniffs 240 characters of the body, the validator 200. */
  const WrapperSnippetLength: nat := 240
  const ValidatorSnippetLength: nat := 200

  /** The body with whitespace runs collapsed, cut to `limit` characters first. */
  function Snippet(body: string, limit: nat): string {
    CollapseSpaces(Prefix(body, limit))
  }

  /** The sniff: the lower-cased content type mentions `text/html`, or the snippet starts
      with `<`, or it holds `<!doctype` in any case. */
  predicate LooksHtml(contentType: string, body: string, limit: nat) {
    var snippet := Snippet(body, limit);
    || Contains(Lower(contentType), "text/html")
    || StartsWith(snippet, "<")
    || Contains(Lower(snippet), "<!doctype")
  }

  /** The snippet starts with `<` exactly when the body's first character is `<`:
      collapsing turns leading whitespace into a space, never into `<`. */
  lemma SnippetStartsWithAngle(body: string, limit: nat)
    ensures StartsWith(Snippet(body, limit), "<") <==> limit > 0 && body != [] && body[0] == '<'
  {
    var cut := Prefix(body, limit);
    if limit > 0 && body != [] {
      assert cut[0] == body[0];
    }
  }

  /** A body whose first character is `<` always sniffs as HTML, whatever its content type. */
  lemma LeadingAngleIsHtml(contentType: string, body: string, limit: nat)
    requires limit > 0 && body != [] && body[0] == '<'
    ensures LooksHtml(contentType, body, limit)
  {
    SnippetStartsWithAngle(body, limit);
  }

  /** A content type holding `text/html` anywhere, in any mix of upper and lower case, is
      enough on its own. */
  lemma HtmlContentTypeIsHtml(contentType: string, i: nat, body: string, limit: nat)
    requires i + 9 <= |contentType| && Lower(contentType[i..i + 9]) == "text/html"
    ensures LooksHtml(contentType, body, limit)
  {
    var m := Lower(contentType);
    assert m[i..i + 9] == Lower(contentType[i..i + 9]);
    assert OccursAt(m, "text/html", i);
  }

  /** No character that lower-cases into `<!doctype` is whitespace. */
  lemma DoctypeHasNoSpace(d: string)
    requires |d| == 9 && Lower(d) == "<!doctype"
    ensures forall k :: 0 <= k < |d| ==> !IsSpace(d[k])
  {
    forall k | 0 <= k < |d|
      ensures !IsSpace(d[k])
    {
      assert Lower(d)[k] == LowerChar(d[k]);
    }
  }

  /** The snippet of such a body: one space for the whitespace, if any, then the
      declaration as it was written. */
  lemma DoctypeSnippet(ws: string, d: string, rest: string, limit: nat)
    requires forall k :: 0 <= k < |ws| ==> IsSpace(ws[k])
    requires |d| == 9 && Lower(d) == "<!doctype"
    requires |ws| + 9 <= limit
    ensures Snippet(ws + d + rest, limit)
         == (if ws == [] then "" else " ") + d + CollapseSpaces(Prefix(rest, limit - |ws| - 9))
  {
    var tail := Prefix(rest, limit - |ws| - 9);
    assert Prefix(ws + d + rest, limit) == ws + (d + tail);
    assert Snippet(ws + d + rest, limit) == CollapseSpaces(ws + (d + tail));
    DoctypeHasNoSpace(d);
    CollapseKeepsWord(d, tail);
    if ws == [] {
      assert ws + (d + tail) == d + tail;
    } else {
      CollapseLeadingRun(ws, d + tail);
    }
  }

  /** A body that opens with `<!doctype` in any case sniffs as HTML whatever its content type,
      even behind leading whitespace, which defeats the test on the first character, as long
      as the declaration ends within the first `limit` characters. */
  lemma DoctypeAfterWhitespaceIsHtml(contentType: string, ws: string, d: string, rest: string,
                                     limit: nat)
    requires forall k :: 0 <= k < |ws| ==> IsSpace(ws[k])
    requires |d| == 9 && Lower(d) == "<!doctype"
    requires |ws| + 9 <= limit
    ensures LooksHtml(contentType, ws + d + rest, limit)
  {
    DoctypeSnippet(ws, d, rest, limit);
    var snippet := Snippet(ws + d + rest, limit);
    var at: nat := if ws == [] then 0 else 1;
    assert snippet[at..at + 9] == d;
    assert Lower(snippet)[at..at + 9] == Lower(d);
    assert OccursAt(Lower(snippet), "<!doctype", at);
  }
}
