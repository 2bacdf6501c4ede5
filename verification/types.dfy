/** Values exchanged by the JSON Web Key handlers of jwk/handler.go and their collaborators:
    keys, errors, firewall verdicts, requests and the responses written back. */
module JwkTypes {

  /** The reserved set holding the OpenID Connect ID-token signing keys. */
  const IDTokenKeyName: string := "hydra.openid.id-token"

  /** The resource prefix used when none is configured. */
  const DefaultResourcePrefix: string := "rn:hydra"

  /** A JSON Web Key. The handlers only look at its key id; the rest is opaque key material. */
  datatype Key = Key(kid: string, material: string)

  /** The zero key: what a key looks like after its unmarshalling failed. */
  const EmptyKey: Key := Key("", "")

  /** Errors are opaque values passed through verbatim; only "not found" is told apart. */
  datatype Error = NotFound | Failure(message: string)

  datatype Option<T> = None | Some(value: T)

  datatype Result<T> = Ok(value: T) | Err(error: Error)

  /** What a firewall check returns: nil or an error. */
  datatype Check = Allowed | Denied(error: Error)

  /** The policy engine. `tokenAllowed(token, resource, action, scope)` is the check bound to the
      request's access token; `isAllowed(subject, resource, action)` is the plain policy check,
      called with the empty (anonymous) subject. */
  datatype Firewall = Firewall(
    tokenAllowed: (string, string, string, string) -> Check,
    isAllowed: (string, string, string) -> Check)

  /** The parts of an HTTP request the handlers read: the bearer token and the URL's scheme and host. */
  datatype Request = Request(token: string, scheme: string, host: string)

  /** The path parameters `:set` and `:key`. */
  datatype Params = Params(setName: string, keyName: string)

  /** The registered key generators; `Custom` stands for any generator installed by the embedder. */
  datatype KeyGenerator = RS256Generator | ECDSA512Generator | HS256Generator | HS512Generator | Custom(name: string)

  /** The body of a key generation request. */
  datatype CreateRequest = CreateRequest(alg: string, kid: string)

  /** The zero request: what the handler sees after the body failed to decode. */
  const EmptyCreateRequest: CreateRequest := CreateRequest("", "")

  /** One write to the response: a key set, a single key, a "201 Created", an error (with its
      status chosen by the writer or given explicitly) or a bare status header. */
  datatype Response =
    | WriteKeySet(keys: seq<Key>)
    | WriteKey(key: Key)
    | WriteCreated(location: string, created: seq<Key>)
    | WriteError(error: Error)
    | WriteErrorCode(status: int, error: Error)
    | WriteHeader(status: int)

  const StatusBadRequest: int := 400
  const StatusNoContent: int := 204
}
