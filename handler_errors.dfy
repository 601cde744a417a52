/** What the two GitHub content handlers share
    (app/api/tools/handlers/github/view_file.ts and view_folder.ts): the
    request parameters, the messages thrown inside the `try` for a non-ok
    status, and the `catch` that rewrites a message by the substrings it
    contains. */
module HandlerErrors {

  import opened Text

  /** `const { path, owner, repo, branch } = params`, as strings. */
  datatype GithubTarget = GithubTarget(path: string, owner: string, repo: string, branch: string)

  /** Thrown inside the `try` for status 401 or 403. */
  const AuthFailedMessage := "GitHub " + "authentication failed" + ". Please check the token configuration."

  /** What the `catch` turns any message mentioning `authentication failed`
      into: the cause is not shown to the user. */
  const AuthApology := "Sorry, I cannot access GitHub right now due to an authentication issue. Please try again later or contact support."

  /** Thrown inside the `try` for any other non-ok status. */
  function ApiErrorMessage(status: nat, statusText: string): string {
    "GitHub API error: " + NatToString(status) + " " + statusText
  }

  /** The `catch` block: a message containing `authentication failed`
      becomes the apology, otherwise one containing `not found` becomes the
      handler's "couldn't find" message, and any other message is rethrown
      unchanged. */
  function Rewrite(message: string, notFoundMessage: string): (r: string)
    ensures r == message || r == AuthApology || r == notFoundMessage
  {
    if Contains(message, "authentication failed") then AuthApology
    else if Contains(message, "not found") then notFoundMessage
    else message
  }

  /** The 401/403 message always ends as the apology. */
  lemma AuthFailedBecomesApology(notFoundMessage: string)
    ensures Rewrite(AuthFailedMessage, notFoundMessage) == AuthApology
  {
    assert AuthFailedMessage[7..7 + |"authentication failed"|] == "authentication failed";
    ContainsAt(AuthFailedMessage, "authentication failed", 7);
  }

  /** The 404 message `<prefix><path>` (prefix `File not found: ` or
      `Folder not found: `) ends as the "couldn't find" message, except when
      the echoed path itself contains `authentication failed`: the `catch`
      tests that substring first. */
  lemma NotFoundBecomesCouldNotFind(prefix: string, path: string, notFoundMessage: string)
    requires prefix == "File not found: " || prefix == "Folder not found: "
    ensures Rewrite(prefix + path, notFoundMessage) ==
              if Contains(path, "authentication failed") then AuthApology else notFoundMessage
  {
    assert forall k :: 0 <= k < |prefix| ==> prefix[k] != 'a';
    ContainsAfterPrefix(prefix, path, "authentication failed");
    if prefix == "File not found: " {
      assert prefix == "File " + "not found" + ": ";
      ContainsMiddle("File ", "not found", ": ");
    } else {
      assert prefix == "Folder " + "not found" + ": ";
      ContainsMiddle("Folder ", "not found", ": ");
    }
    ContainsBeforeSuffix(prefix, path, "not found");
  }

  /** The generic status message is rethrown unchanged unless the status text
      contains one of the two substrings: neither can start in the fixed
      prefix or in the digits of the status. */
  lemma ApiErrorRewrite(status: nat, statusText: string, notFoundMessage: string)
    ensures Rewrite(ApiErrorMessage(status, statusText), notFoundMessage) ==
              if Contains(statusText, "authentication failed") then AuthApology
              else if Contains(statusText, "not found") then notFoundMessage
              else ApiErrorMessage(status, statusText)
  {
    var prefix := "GitHub API error: " + NatToString(status) + " ";
    assert ApiErrorMessage(status, statusText) == prefix + statusText;
    assert forall k :: 0 <= k < |prefix| ==> prefix[k] != 'a' && prefix[k] != 'n' by {
      var digits := NatToString(status);
      forall k | 0 <= k < |prefix| ensures prefix[k] != 'a' && prefix[k] != 'n' {
        if |"GitHub API error: "| <= k < |"GitHub API error: "| + |digits| {
          assert prefix[k] == digits[k - |"GitHub API error: "|];
        }
      }
    }
    ContainsAfterPrefix(prefix, statusText, "authentication failed");
    ContainsAfterPrefix(prefix, statusText, "not found");
  }

  /** The shape of both "couldn't find" messages, over arbitrary pieces:
      the path, `owner/repo` and the branch each occur in it. */
  lemma EchoesPieces(a: string, p: string, b: string, o: string, sl: string, rp: string, c: string, br: string, d: string)
    ensures Contains(a + p + b + o + sl + rp + c + br + d, p)
    ensures Contains(a + p + b + o + sl + rp + c + br + d, o + sl + rp)
    ensures Contains(a + p + b + o + sl + rp + c + br + d, br)
  {
    var m := a + p + b + o + sl + rp + c + br + d;
    assert m == a + p + (b + o + sl + rp + c + br + d);
    ContainsMiddle(a, p, b + o + sl + rp + c + br + d);
    assert m == (a + p + b) + (o + sl + rp) + (c + br + d);
    ContainsMiddle(a + p + b, o + sl + rp, c + br + d);
    assert m == (a + p + b + o + sl + rp + c) + br + d;
    ContainsMiddle(a + p + b + o + sl + rp + c, br, d);
  }
}
