/** The storage of the name system: the registrar, registry, resolver and marketplace maps. */
module PnsTypes {
  import opened Wrappers
  import opened Balances

  // ---------- Configuration ----------

  const DAY: nat := 86_400_000
  const GRACE_PERIOD: nat := 30 * DAY
  const OFFER_WINDOW: nat := 90 * DAY
  const MAX_REGISTRATION: nat := 365 * DAY
  const DEFAULT_CAPACITY: nat := 10
  const LISTING_DEPOSIT: nat := 10_000_000_000
  const LISTING_GRACE: nat := 7 * DAY
  const MAX_U64: nat := 0xFFFF_FFFF_FFFF_FFFF

  function SaturatingAdd(a: nat, b: nat): nat {
    Min(a + b, MAX_U64)
  }

  // ---------- Names ----------

  /** A label after normalisation; labels that differ only in case are the same label. */
  type Label = s: string | |s| > 0 witness "a"

  /** Name hashes, as injective constructors. `Zero` is the default hash, which hashes no name. */
  datatype Node = Zero | Base | Child(parent: Node, name: Label)

  /** A canonical name: a label directly under the base node. */
  predicate IsName(n: Node) {
    n.Child? && n.parent == Base
  }

  predicate IsSubname(n: Node) {
    n.Child? && IsName(n.parent)
  }

  function NameHash(name: Label): Node {
    Child(Base, name)
  }

  function SubnameHash(parent: Label, name: Label): Node {
    Child(NameHash(parent), name)
  }

  // ---------- Rows ----------

  datatype Token = Token(owner: Account, children: nat)
  datatype Info = Info(expire: nat, capacity: nat, registerFee: nat, lastBlock: nat)
  datatype Offer = Offer(recipient: Account, buyer: Account, offeredAt: nat)
  datatype Listing = Listing(seller: Account, price: nat, expiresAt: nat)
  datatype SubnameState = Offered | Active | Rejected
  datatype Subname = Subname(target: Account, state: SubnameState)
  datatype RecordType = SS58 | ORIGIN | A | AAAA | TXT | PUBKEY1 | AVATAR | CONTENT | RPC
  datatype Content = Owner(who: Account) | BlockHash(hash: nat) | Bytes(bytes: seq<nat>)

  /** The types an owner may write; the others are written by the chain itself. */
  predicate UserSettable(t: RecordType) {
    t != SS58 && t != ORIGIN
  }

  /** Prices by label length: one to ten characters, then eleven and more. */
  type PriceTable = p: seq<nat> | |p| == 11 witness [0, 0, 0, 0, 0, 0, 0, 0, 0, 0, 0]

  function Price(prices: PriceTable, name: Label): nat {
    prices[Min(|name|, 11) - 1]
  }

  function CleanupShare(price: nat): nat {
    price * 5 / 100
  }

  datatype State = State(
    now: nat,
    bank: Bank,
    prices: PriceTable,
    reserved: set<Node>,
    official: Account,
    tokens: map<Node, Token>,
    primary: map<Account, Node>,
    infos: map<Node, Info>,
    deposits: map<Node, (Account, nat)>,
    offers: map<Node, Offer>,
    listings: map<Node, Listing>,
    subnames: map<Node, Subname>,
    inbox: set<(Account, Node)>,
    origins: map<Node, Node>,
    records: map<(Node, RecordType), Content>,
    texts: map<(Node, nat), Content>)

  datatype Error =
    | AlreadyHasCanonicalName | NoCanonicalName | Frozen | Occupied | NotExpired
    | FundsUnavailable | NotOffered | NotRegistered | HasSubnames
    | ListingNotFound | AlreadyListed | ExpiryNotInFuture | ListingNotExpired
    | BuyerIsSeller | BuyerIsRecipient | SellerIsRecipient | NotForSale | FeeTooHigh
    | CannotOwnSubnameUnderOwnDomain | SubnameNotFound | NotSubnameTarget | SubnameIsActive
    | InvalidRecordType | InvalidPermission | BadOrigin

  datatype Origin = Root | Signed(who: Account)

  /** The live subnames of a name torn down go with it, stop it from going, or stay behind. */
  datatype Fate = Cascade | Refuse | Leave

  /**
   What this repository leaves open about a call, one field for each point. Every theorem
   is about all values of all of them.
   - fees: to whom the fee of the call goes, and how much
   - fate: what tearing a name down means for its live subnames
   - keepListing: a listing outlives the ownership it was made under (or is refunded)
   - keepTexts: text entries survive a change of owner
   - carrier, amount: who holds the cleanup deposit after a sale or gift, and how much
   - custodian: who owns the token while a gift is pending
   - bounty: what the finder of an expired name or listing is paid out of the deposit
   - expire: the expiry a renewal sets
   - block, hash: the block the call is in
   */
  datatype Open = Open(
    fees: seq<(Account, nat)>, fate: Fate, keepListing: bool, keepTexts: bool,
    carrier: Account, amount: nat, custodian: Account, bounty: nat, expire: nat,
    block: nat, hash: nat)

  /** A bounty is taken from the deposit, and is not nothing unless the deposit is. */
  function BountyFrom(deposit: nat, wished: nat): nat {
    Min(deposit, if wished == 0 then 1 else wished)
  }
}
