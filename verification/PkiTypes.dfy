/** The storage of the certificate system: certificates, their indexes, and the schedule that ends them. */
module PkiTypes {
  import opened Balances

  /** How long an inactive certificate outlives its expiry, in blocks. */
  const INACTIVE_PURGE_PERIOD: nat := 14_400 * 30
  /** What a reissued certificate holds of its issuer. */
  const CERT_DEPOSIT: nat := 1_000_000_000_000

  /** What attestation says about a device; only a Tpm verdict names one. */
  datatype Verdict = Tpm(ek: nat) | Packed | NoAttestation

  /** The hash of a certificate's canonical bytes, as an injective constructor of what they hold. */
  datatype Thumbprint = Thumbprint(root: Account, issuer: Account, user: Account, expiry: nat, body: nat)

  datatype HotRow = HotRow(active: bool, expiry: nat, root: Account, issuer: Account, user: Account)
  datatype ColdRow = ColdRow(deposit: nat, funder: Account, template: TemplateKey, verdict: Verdict)

  type TemplateKey = (Account, string)

  datatype Template = Template(active: bool, popRequired: bool)
  datatype Issuer = Issuer(root: Account, compromised: bool)
  datatype CertOffer = CertOffer(issuer: Account, user: Account, template: string, ttl: nat, createdAt: nat)

  /** The two primary maps and everything that indexes them. */
  datatype Certs = Certs(
    hot: map<Thumbprint, HotRow>,
    cold: map<Thumbprint, ColdRow>,
    byIssuer: set<(Account, Thumbprint)>,
    byUser: set<(Account, Thumbprint)>,
    byRoot: set<(Account, Thumbprint)>,
    userIssuer: map<(Account, Account), Thumbprint>,
    eks: map<(Account, nat), Thumbprint>,
    live: map<TemplateKey, nat>)

  datatype Registry = Registry(
    proxies: map<Account, seq<Account>>,
    roots: set<Account>,
    issuers: map<Account, Issuer>,
    templates: map<TemplateKey, Template>,
    offers: map<nat, CertOffer>,
    offerIndex: map<(Account, Account), nat>)

  /** For each block, the certificates that expire in it and those to be removed in it. */
  datatype Schedule = Schedule(expiry: map<nat, seq<Thumbprint>>, purge: map<nat, seq<Thumbprint>>)

  datatype State = State(now: nat, bank: Bank, registry: Registry, certs: Certs, schedule: Schedule)

  function Bucket(index: map<nat, seq<Thumbprint>>, block: nat): seq<Thumbprint> {
    if block in index then index[block] else []
  }

  function File(index: map<nat, seq<Thumbprint>>, block: nat, t: Thumbprint): map<nat, seq<Thumbprint>> {
    index[block := Bucket(index, block) + [t]]
  }

  datatype Error =
    | DelegateNotFound | ProxyNotFound | RootNotFound | IssuerExists | IssuerNotFound | NotIssuersRoot
    | TemplateExists | TemplateNotFound | TemplateInactive | TemplateHasActiveCerts
    | OfferNotFound | OfferMismatch | NonceTaken | InvalidTtl | AlreadyCertified
    | PopRequired | HipProofInvalid | EkAlreadyRegistered | FundsUnavailable | TipAboveCap
    | CertNotFound | NotCertIssuer | NotCertHolder | NotReapable
}
