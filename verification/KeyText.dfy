/** The text of a stream key: how it is generated, and how a request names it. */
module KeyText {
  import opened Domain
  import opened Schema
  import Statements
  import B = Base64Url

  const PREFIX := "sk_"
  const ENTROPY := 32

  /** What MediaMTX sends to the authentication endpoint, in so far as the decision depends on it. */
  datatype AuthRequest = AuthRequest(password: string, action: string, path: string)

  predicate WantsPublish(req: AuthRequest) {
    req.action == "publish"
  }

  /** The key a request presents: the password, or else the path without one leading slash. */
  function Presented(req: AuthRequest): string {
    if req.password != "" then req.password
    else if |req.path| > 0 && req.path[0] == '/' then req.path[1..]
    else req.path
  }

  /** The same said of a text: it is the password; or there is no password, and the path is the text
      after one slash, or the text itself, if that does not begin with one. */
  predicate Presents(req: AuthRequest, text: string) {
    if req.password != "" then text == req.password
    else req.path == "/" + text || (req.path == text && !("/" <= text))
  }

  lemma PresentsOnly(req: AuthRequest, text: string)
    ensures Presents(req, text) <==> text == Presented(req)
  {
    if "/" <= req.path {
      assert req.path == "/" + req.path[1..];
    }
    assert ("/" + text)[1..] == text;
  }

  function Generated(entropy: seq<B.byte>): string {
    PREFIX + B.Encode(entropy)
  }

  /** The data model's pattern sk_[A-Za-z0-9_-]{43}. */
  predicate MatchesPattern(text: string) {
    && |text| == 46
    && text[..3] == "sk_"
    && forall i | 3 <= i < 46 :: B.UrlSafe(text[i])
  }

  /** generateStreamKey: 32 random bytes, when the source of randomness delivers them. */
  method GenerateStreamKey(random: Option<seq<B.byte>>) returns (key: Option<string>)
    requires random.Some? ==> |random.value| == ENTROPY
    ensures key.Some? <==> random.Some?
    ensures key.Some? ==> MatchesPattern(key.value) && |key.value| <= MAX_KEY_VALUE
    ensures key.Some? ==> key.value == Generated(random.value) && B.Decode(key.value[3..]) == random
  {
    if random.None? {
      return None;
    }
    var bytes := new B.byte[ENTROPY](i requires 0 <= i < ENTROPY => random.value[i]);
    assert bytes[..] == random.value;
    key := Some(PREFIX + B.Encode(bytes[..]));
    GeneratedMatchesPattern(random.value);
    B.DecodeEncode(random.value);
    assert key.value[3..] == B.Encode(random.value);
  }

  lemma GeneratedMatchesPattern(entropy: seq<B.byte>)
    requires |entropy| == ENTROPY
    ensures MatchesPattern(Generated(entropy))
  {
    var text := Generated(entropy);
    forall i | 3 <= i < 46 ensures B.UrlSafe(text[i]) {
      B.EncodeIsUrlSafe(entropy, i - 3);
      assert text[i] == B.Encode(entropy)[i - 3];
    }
  }

  /** No entropy is lost: distinct random bytes give distinct keys, so a key collides with a
      stored one only if the bytes themselves repeat. */
  lemma GeneratedInjective(a: seq<B.byte>, b: seq<B.byte>)
    requires Generated(a) == Generated(b)
    ensures a == b
  {
    assert Generated(a)[3..] == B.Encode(a) && Generated(b)[3..] == B.Encode(b);
    B.EncodeInjective(a, b);
  }

  /** Every way of presenting a generated key, and the bare path the ready webhook looks up, find
      the row that stores it and no other. */
  lemma EveryPresentationFindsTheKey(t: Tables, k: Uuid, entropy: seq<B.byte>, action: string, path: string)
    requires Constraints(t) && k in t.keys && t.keys[k].keyValue == Generated(entropy)
    ensures var text := Generated(entropy);
            && KeyByValue(t, Presented(AuthRequest(text, action, path))) == Some(k)
            && KeyByValue(t, Presented(AuthRequest("", action, text))) == Some(k)
            && KeyByValue(t, Presented(AuthRequest("", action, "/" + text))) == Some(k)
            && KeyByValue(t, text) == Some(k)
  {
    var text := Generated(entropy);
    Statements.KeyByValueIs(t, k);
    assert text[0] == 's';
    assert ("/" + text)[1..] == text;
  }
}
