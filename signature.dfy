/**
 * verify_signature: the delivery is accepted only when its
 * `x-hub-signature-256` header equals "sha256=" followed by the lower-case
 * hex HMAC-SHA256 of the raw body under the shared secret. The digest is a
 * foreign function, passed in as `hmacHex(secret, body)`.
 */
module Signature {
  import opened Js
  import opened Events

  const Scheme := "sha256="

  /** The header value the sender must have put on `body`. */
  function Expected(hmacHex: (string, string) -> string, secret: string, body: string): string
  {
    Scheme + hmacHex(secret, body)
  }

  /** Node's createHmac throws on an undefined key and update throws on a
      body that is not a string; otherwise a plain string comparison. */
  function VerifySignature(hmacHex: (string, string) -> string, secret: Option<string>, body: Body,
                           requestSig: Option<string>): (r: Outcome<bool>)
    ensures r.Threw? <==> secret.None? || !body.Raw?
    ensures r.Threw? ==> r.error.InvalidArgType?
    ensures r.Done? ==> (r.value <==> requestSig == Some(Expected(hmacHex, secret.value, body.text)))
  {
    if secret.None? then Threw(InvalidArgType("key"))
    else if !body.Raw? then Threw(InvalidArgType("data"))
    else Done(requestSig == Some(Scheme + hmacHex(secret.value, body.text)))
  }

  /** A delivery without the signature header is never accepted. */
  lemma AbsentSignatureFails(hmacHex: (string, string) -> string, secret: Option<string>, body: Body)
    ensures VerifySignature(hmacHex, secret, body, None) != Done(true)
  {
  }

  /** At most one header value is accepted for a given secret and body:
      changing an accepted signature in any way makes it fail. */
  lemma AcceptedSignatureUnique(hmacHex: (string, string) -> string, secret: Option<string>, body: Body,
                                sig1: string, sig2: string)
    requires VerifySignature(hmacHex, secret, body, Some(sig1)) == Done(true)
    requires sig2 != sig1
    ensures VerifySignature(hmacHex, secret, body, Some(sig2)) == Done(false)
  {
  }

  /** The signature a sender computes with the same secret is accepted. */
  lemma SenderSignatureAccepted(hmacHex: (string, string) -> string, secret: string, body: string)
    ensures VerifySignature(hmacHex, Some(secret), Raw(body), Some(Expected(hmacHex, secret, body))) == Done(true)
  {
  }
}
