/** The bearer-token check in front of the protected routes: the
    Authorization header must be "Bearer", one space and a token without
    spaces. */
module AuthMiddleware {
  import opened Http

  const HeaderRequired := "Authorization header is required"
  const InvalidFormat := "Invalid authorization header format"

  /** `strings.Split(s, " ")`: the pieces between single spaces, in order;
      the empty string gives one empty piece. */
  function Split(s: string): (parts: seq<string>)
    ensures |parts| >= 1
  {
    if s == [] then [""]
    else
      var rest := Split(s[1..]);
      if s[0] == ' ' then [""] + rest else [[s[0]] + rest[0]] + rest[1..]
  }

  /** `strings.Join(parts, " ")`. */
  function Join(parts: seq<string>): string
    requires |parts| >= 1
  {
    if |parts| == 1 then parts[0] else parts[0] + " " + Join(parts[1..])
  }

  function Spaces(s: string): nat {
    if s == [] then 0 else (if s[0] == ' ' then 1 else 0) + Spaces(s[1..])
  }

  /** Joining the pieces with single spaces gives the string back. */
  lemma {:induction false} JoinSplit(s: string)
    ensures Join(Split(s)) == s
  {
    if s != [] {
      JoinSplit(s[1..]);
      var rest := Split(s[1..]);
      if s[0] != ' ' {
        var parts := Split(s);
        assert parts[0] == [s[0]] + rest[0];
        if |rest| == 1 {
          assert s == [s[0]] + s[1..];
        } else {
          assert parts[1..] == rest[1..];
          assert s == [s[0]] + s[1..];
        }
      } else {
        assert s == " " + s[1..];
      }
    }
  }

  /** No piece holds a space, and there is one piece more than spaces. */
  lemma {:induction false} SplitPieces(s: string)
    ensures forall j :: 0 <= j < |Split(s)| ==> ' ' !in Split(s)[j]
    ensures |Split(s)| == Spaces(s) + 1
  {
    if s != [] {
      SplitPieces(s[1..]);
      var rest := Split(s[1..]);
      var parts := Split(s);
      if s[0] != ' ' {
        assert parts[0] == [s[0]] + rest[0];
        assert forall j :: 1 <= j < |parts| ==> parts[j] == rest[j];
      } else {
        assert forall j :: 1 <= j < |parts| ==> parts[j] == rest[j - 1];
      }
    }
  }

  /** A piece without spaces followed by a space splits off first. */
  lemma {:induction false} SplitAfterPiece(p: string, r: string)
    requires ' ' !in p
    ensures Split(p + " " + r) == [p] + Split(r)
  {
    if p == [] {
      assert p + " " + r == " " + r;
      assert (" " + r)[1..] == r;
    } else {
      var s := p + " " + r;
      assert s[0] == p[0] && s[1..] == p[1..] + " " + r;
      SplitAfterPiece(p[1..], r);
      assert [p[0]] + p[1..] == p;
    }
  }

  lemma {:induction false} SplitOfPiece(p: string)
    requires ' ' !in p
    ensures Split(p) == [p]
  {
    if p != [] {
      SplitOfPiece(p[1..]);
      assert [p[0]] + p[1..] == p;
    }
  }

  /** Pieces without spaces are what splitting their join gives. */
  lemma {:induction false} SplitJoin(parts: seq<string>)
    requires |parts| >= 1 && forall j :: 0 <= j < |parts| ==> ' ' !in parts[j]
    ensures Split(Join(parts)) == parts
  {
    if |parts| == 1 {
      SplitOfPiece(parts[0]);
    } else {
      SplitJoin(parts[1..]);
      SplitAfterPiece(parts[0], Join(parts[1..]));
      assert [parts[0]] + parts[1..] == parts;
    }
  }

  datatype ErrorResponse = ErrorResponse(success: bool, message: string)

  /** A 401 reply, or control passed on with the token stored for the handler. */
  datatype AuthOutcome = Reject(status: int, response: ErrorResponse) | Next(token: string)

  function RequireAuth(header: string): AuthOutcome {
    if header == "" then Reject(StatusUnauthorized, ErrorResponse(false, HeaderRequired))
    else
      var parts := Split(header);
      if |parts| != 2 || parts[0] != "Bearer" then Reject(StatusUnauthorized, ErrorResponse(false, InvalidFormat))
      else Next(parts[1])
  }

  /** The header is accepted with token `t` exactly when it is "Bearer ", then
      `t`, and `t` has no space; `t` may be empty. */
  lemma RequireAuthAccepts(header: string, t: string)
    ensures RequireAuth(header) == Next(t) <==> header == "Bearer " + t && ' ' !in t
  {
    if RequireAuth(header) == Next(t) {
      var parts := Split(header);
      JoinSplit(header);
      SplitPieces(header);
      assert parts == ["Bearer", t];
      assert Join(parts) == "Bearer" + " " + Join(parts[1..]);
    }
    if header == "Bearer " + t && ' ' !in t {
      var parts := ["Bearer", t];
      assert ' ' !in parts[0] && ' ' !in parts[1];
      assert Join(parts[1..]) == t;
      assert Join(parts) == header;
      SplitJoin(parts);
      assert header != "";
    }
  }

  /** Every rejection is a 401; an empty header has its own message, a
      header without a space or with more than one is malformed, and every
      other rejected header (one space, another scheme) gets the same
      malformed-header message. */
  lemma RequireAuthRejects(header: string)
    ensures RequireAuth(header).Reject? ==>
              RequireAuth(header).status == StatusUnauthorized && !RequireAuth(header).response.success
    ensures RequireAuth("") == Reject(StatusUnauthorized, ErrorResponse(false, HeaderRequired))
    ensures header != "" && Spaces(header) != 1 ==>
              RequireAuth(header) == Reject(StatusUnauthorized, ErrorResponse(false, InvalidFormat))
    ensures header != "" && RequireAuth(header).Reject? ==>
              RequireAuth(header).response.message == InvalidFormat
  {
    SplitPieces(header);
  }
}
