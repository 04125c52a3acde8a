/**
 The records that the OAuth side of the server persists, and the cryptographic
 values in them.

 SHA-256 and AES-GCM are modelled by constructors: a digest remembers its
 preimage and a sealed blob remembers the context it was sealed under, so
 hashing is injective and a blob opens under an equal context only.
 */
module OAuthRecords {
  import opened Basics

  type Time = int

  datatype Digest = Sha256(preimage: string)

  /** A PKCE challenge is the S256 image of some verifier, or a well-formed text that is the image of none. */
  datatype Challenge = S256(verifier: string) | NoImage(text: string)

  datatype Identity = Identity(tenant: string, user: string)

  /** What the client asked for; a transaction hands these terms on to the code it produces. */
  datatype Terms = Terms(client: string, redirect: string, challenge: Challenge, scope: set<string>, resource: string)

  datatype Transaction = Transaction(
    idHash: Digest, issuer: string, terms: Terms, clientState: string, entraStateHash: Digest,
    flow: Blob, createdAt: Time, expiresAt: Time, completedAt: Option<Time>)

  datatype AuthCode = AuthCode(
    codeHash: Digest, issuer: string, terms: Terms, owner: Identity,
    bundle: Blob, createdAt: Time, expiresAt: Time, usedAt: Option<Time>)

  /** The columns of a session row that no statement ever updates. */
  datatype SessionFacts = SessionFacts(
    issuer: string, client: string, owner: Identity, scope: set<string>, resource: string,
    createdAt: Time, expiresAt: Time, family: string)

  datatype Session = Session(
    id: string, facts: SessionFacts, tokenHash: Digest, cache: Blob,
    updatedAt: Time, revokedAt: Option<Time>, rotationCount: nat)

  datatype Client = Client(redirects: set<string>, mayRefresh: bool)

  // ----- sealing -----

  datatype Context =
    | TransactionContext(idHash: Digest, issuer: string, terms: Terms, clientState: string,
                         entraStateHash: Digest, createdAt: Time, expiresAt: Time)
    | CodeContext(codeHash: Digest, issuer: string, terms: Terms, owner: Identity, createdAt: Time, expiresAt: Time)
    | SessionContext(id: string, facts: SessionFacts, tokenHash: Digest, rotationCount: nat)

  datatype Payload =
    | Flow(flow: string)
    | Bundle(accessToken: string, accessExpiresAt: Time, cache: string)
    | Cache(cache: string)

  datatype Blob = Blank | Sealed(context: Context, payload: Payload)

  function Open(blob: Blob, context: Context): Option<Payload> {
    if blob.Sealed? && blob.context == context then Some(blob.payload) else None
  }

  function ContextOfTransaction(tx: Transaction): Context {
    TransactionContext(tx.idHash, tx.issuer, tx.terms, tx.clientState, tx.entraStateHash, tx.createdAt, tx.expiresAt)
  }

  function ContextOfCode(code: AuthCode): Context {
    CodeContext(code.codeHash, code.issuer, code.terms, code.owner, code.createdAt, code.expiresAt)
  }

  function ContextOfSession(session: Session): Context {
    SessionContext(session.id, session.facts, session.tokenHash, session.rotationCount)
  }
}
