/**
 * Encodings that must not be ambiguous
 * (packages/cardano-agent/src/conversations.ts:19-34, apps/telegram-bot/src/knowledgePromotionProtocol.ts:225-242).
 *
 * Both join fields into one byte string that is then authenticated: one by prefixing each field
 * with its length, one with newlines.  Two field lists with one encoding would share a tag.
 */
module Encodings {
  import opened Wrappers

  // ---------------------------------------------------------------- length-prefixed

  function Digit(d: nat): char
    requires d < 10
  {
    (d + '0' as int) as char
  }

  // A number in decimal, without leading zeros.
  function Decimal(n: nat): (s: string)
    ensures |s| > 0 && forall i | 0 <= i < |s| :: '0' <= s[i] <= '9'
  {
    if n < 10 then [Digit(n)] else Decimal(n / 10) + [Digit(n % 10)]
  }

  function ValueOf(s: string): nat
    requires forall i | 0 <= i < |s| :: '0' <= s[i] <= '9'
  {
    if |s| == 0 then 0 else 10 * ValueOf(s[..|s| - 1]) + (s[|s| - 1] as int - '0' as int)
  }

  lemma {:induction false} DecimalReadsBack(n: nat)
    ensures ValueOf(Decimal(n)) == n
  {
    if n >= 10 {
      DecimalReadsBack(n / 10);
      var s := Decimal(n);
      assert s[..|s| - 1] == Decimal(n / 10);
    } else {
      assert Decimal(n)[..0] == "";
    }
  }

  // Fields are strings of bytes; each is preceded by its length and a colon.
  function Encoded(fields: seq<string>): string {
    if |fields| == 0 then "" else Decimal(|fields[0]|) + ":" + fields[0] + Encoded(fields[1..])
  }

  function ColonAt(s: string, i: nat): (k: nat)
    requires i <= |s|
    ensures i <= k <= |s| && (k < |s| ==> s[k] == ':') && forall j | i <= j < k :: s[j] != ':'
    decreases |s| - i
  {
    if i == |s| || s[i] == ':' then i else ColonAt(s, i + 1)
  }

  predicate AreDigits(s: string) { forall i | 0 <= i < |s| :: '0' <= s[i] <= '9' }

  // Reads the fields back: digits up to a colon, then that many bytes.
  function Decoded(s: string): Option<seq<string>>
    decreases |s|
  {
    if |s| == 0 then Some([])
    else
      var k := ColonAt(s, 0);
      if k == |s| || !AreDigits(s[..k]) || k + 1 + ValueOf(s[..k]) > |s| then None
      else
        var end := k + 1 + ValueOf(s[..k]);
        match Decoded(s[end..])
        case None => None
        case Some(rest) => Some([s[k + 1..end]] + rest)
  }

  lemma {:induction false} FirstField(head: string, field: string, rest: string)
    requires head == Decimal(|field|)
    ensures var s := head + ":" + field + rest;
            && ColonAt(s, 0) == |head| && s[..|head|] == head && AreDigits(head) && ValueOf(head) == |field|
            && s[|head| + 1..|head| + 1 + |field|] == field && s[|head| + 1 + |field|..] == rest
  {
    var s := head + ":" + field + rest;
    DecimalReadsBack(|field|);
    var k := ColonAt(s, 0);
    assert s[|head|] == ':';
    assert forall i | 0 <= i < |head| :: s[i] == head[i];
    assert k == |head|;
  }

  // Decoding inverts encoding, so two field lists never share an encoding.
  lemma {:induction false} DecodesBack(fields: seq<string>)
    ensures Decoded(Encoded(fields)) == Some(fields)
    decreases |fields|
  {
    hide ColonAt, ValueOf, Decimal, AreDigits;
    if |fields| > 0 {
      var head, rest := Decimal(|fields[0]|), Encoded(fields[1..]);
      DecodesBack(fields[1..]);
      FirstField(head, fields[0], rest);
      assert [fields[0]] + fields[1..] == fields;
    }
  }

  const CONVERSATION_AAD_VERSION := "vennek-conversation-aad:v1"

  // `utf8` turns a text into its bytes.
  function ConversationAad(utf8: string -> string, user: string, chat: string, role: string, id: string,
                           createdAt: string): string {
    Encoded([utf8(CONVERSATION_AAD_VERSION), utf8(user), utf8(chat), utf8(role), utf8(id), utf8(createdAt)])
  }

  ghost predicate IsInjective(f: string -> string) { forall a, b | f(a) == f(b) :: a == b }

  // Two rows share associated data only if they agree in every field.
  lemma {:induction false} ConversationAadIsInjective(utf8: string -> string, user: string, chat: string,
                                                      role: string, id: string, createdAt: string,
                                                      user': string, chat': string, role': string, id': string,
                                                          createdAt': string)
    requires IsInjective(utf8)
    requires ConversationAad(utf8, user, chat, role, id, createdAt) == ConversationAad(utf8, user', chat', role', id',
            createdAt')
    ensures user == user' && chat == chat' && role == role' && id == id' && createdAt == createdAt'
  {
    hide Encoded, Decoded;
    var a := [utf8(CONVERSATION_AAD_VERSION), utf8(user), utf8(chat), utf8(role), utf8(id), utf8(createdAt)];
    var b := [utf8(CONVERSATION_AAD_VERSION), utf8(user'), utf8(chat'), utf8(role'), utf8(id'), utf8(createdAt')];
    DecodesBack(a);
    DecodesBack(b);
    assert a[1] == b[1] && a[2] == b[2] && a[3] == b[3] && a[4] == b[4] && a[5] == b[5];
  }

  // ---------------------------------------------------------------- newline-joined

  predicate HasNoNewline(s: string) { forall i | 0 <= i < |s| :: s[i] != '\n' }

  function JoinedByNewlines(fields: seq<string>): string {
    if |fields| == 0 then "" else if |fields| == 1 then fields[0] else fields[0] + "\n" + JoinedByNewlines(fields[1..])
  }

  lemma {:induction false} FirstLine(a: string, x: string, b: string, y: string)
    requires HasNoNewline(a) && HasNoNewline(b) && a + "\n" + x == b + "\n" + y
    ensures a == b && x == y
  {
    var s, t := a + "\n" + x, b + "\n" + y;
    assert s[|a|] == '\n' && t[|b|] == '\n';
    assert forall i | 0 <= i < |a| :: s[i] == a[i];
    assert forall i | 0 <= i < |b| :: t[i] == b[i];
    assert a == s[..|a|] && b == t[..|b|] && x == s[|a| + 1..] && y == t[|b| + 1..];
  }

  // Lists of equally many newline-free fields are told apart by their joins.
  lemma {:induction false} JoiningIsInjective(a: seq<string>, b: seq<string>)
    requires |a| == |b| && JoinedByNewlines(a) == JoinedByNewlines(b)
    requires forall i | 0 <= i < |a| :: HasNoNewline(a[i]) && HasNoNewline(b[i])
    ensures a == b
    decreases |a|
  {
    if |a| >= 2 {
      FirstLine(a[0], JoinedByNewlines(a[1..]), b[0], JoinedByNewlines(b[1..]));
      JoiningIsInjective(a[1..], b[1..]);
      assert a == [a[0]] + a[1..] && b == [b[0]] + b[1..];
    }
  }

  const PROMOTION_PATH := "/internal/knowledge/promote"

  // `digest` is the base64url digest of the body.
  function CanonicalSignature(digest: string -> string, keyId: string, requestId: string, timestamp: string,
                              nonce: string, body: string): string {
    JoinedByNewlines(["VENNEK-PROMOTION-V1", "POST", PROMOTION_PATH, keyId, requestId, timestamp, nonce, digest(body)])
  }

  // The signed text of two requests is the same only if everything signed is: no field can run over
  // into its neighbour, because the accepted ones hold no newline.
  lemma {:induction false} CanonicalSignatureIsInjective(digest: string -> string, keyId: string, requestId: string,
                                                         timestamp: string, nonce: string,
                                                         body: string, keyId': string, requestId': string,
                                                             timestamp': string, nonce': string,
                                                         body': string)
    requires IsInjective(digest) && forall b :: HasNoNewline(digest(b))
    requires HasNoNewline(keyId) && HasNoNewline(requestId) && HasNoNewline(timestamp) && HasNoNewline(nonce)
    requires HasNoNewline(keyId') && HasNoNewline(requestId') && HasNoNewline(timestamp') && HasNoNewline(nonce')
    requires CanonicalSignature(digest, keyId, requestId, timestamp, nonce, body)
             == CanonicalSignature(digest, keyId', requestId', timestamp', nonce', body')
    ensures keyId == keyId' && requestId == requestId' && timestamp == timestamp' && nonce == nonce' && body == body'
  {
    hide JoinedByNewlines;
    var a := ["VENNEK-PROMOTION-V1", "POST", PROMOTION_PATH, keyId, requestId, timestamp, nonce, digest(body)];
    var b := ["VENNEK-PROMOTION-V1", "POST", PROMOTION_PATH, keyId', requestId', timestamp', nonce', digest(body')];
    JoiningIsInjective(a, b);
    assert a[3] == b[3] && a[4] == b[4] && a[5] == b[5] && a[6] == b[6] && a[7] == b[7];
  }
}
