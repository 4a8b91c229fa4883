/** The entities the transport bot stores: items, the two sides of a request,
    the request itself, and the commands a customer's message is decoded to. */
module Types {

  datatype Option<+T> = None | Some(value: T)

  /** A canonical phone number (see module Phones). */
  type Phone = string

  /** A calendar day, counted so that a day d with d % 7 == 2 is a Tuesday. */
  type Date = int

  datatype Role = Donor | Receiver

  datatype Kind =
    | Bed | Sofa | Wardrobe | Fridge | Oven | TableSet | Table | Chairs | WashingMachine
    | Dryer | Freezer | Dishwasher | Other | Piano | HouseMove

  datatype OvenType = BuiltIn | Combined

  datatype Evacuation = NoEvacuation | Equivalent | Different

  datatype ItemInput = ItemInput(kind: Kind, description: string, quantity: int)

  datatype Item = Item(
    kind: Kind, description: string, quantity: int,
    free: Option<bool>, working: Option<bool>, needsDisassembly: Option<bool>,
    smallWhole: Option<bool>, ovenType: Option<OvenType>, evacuation: Option<Evacuation>)

  datatype Party = Party(
    role: Role, phone: Phone,
    name: Option<string>, settlement: Option<string>, address: Option<string>,
    floor: Option<int>, floorNoteShown: bool,
    approvedAt: Option<int>, approvedBy: Option<Phone>,
    scheduleDate: Option<Date>)

  datatype Status =
    | Collecting | Available | AwaitingApproval | WaitingCapacity | Coordinated
    | Human | CancelPending | Cancelled | Closed | Rejected

  datatype Origin = Donation | Direct

  /** What a party's approval of a date is about: who the sides are and where
      they live, and what is carried. */
  datatype PartyFacts = PartyFacts(
    role: Role, phone: Phone,
    name: Option<string>, settlement: Option<string>, address: Option<string>, floor: Option<int>)
  datatype Facts = Facts(parties: seq<PartyFacts>, items: seq<Item>)

  /** One approval of a date: who sent it, the date that was the live proposal
      at that moment, and the facts as they were at that moment. */
  datatype Consent = Consent(phone: Phone, date: Date, facts: Facts)

  /** A request row with its parties, items and photos. The field consents is a
      history variable: it is written by the date approval and never read. */
  datatype Request = Request(
    version: nat, status: Status, origin: Origin,
    verificationContacted: bool, representsBoth: bool,
    items: seq<Item>, parties: seq<Party>, photos: seq<string>,
    runDate: Option<Date>, proposed: Option<Date>, earliest: Option<Date>,
    consents: map<Role, Consent>)

  datatype CancelChoice = Ask | NextWeek | Final

  datatype Command =
    | AskStatus
    | Seek(kind: Kind)
    | Donate(items: seq<ItemInput>, otherPhone: Option<string>, otherName: Option<string>,
             direct: bool, free: Option<bool>, working: Option<bool>)
    | ReceiveFromDonor(items: seq<ItemInput>, otherPhone: Option<string>)
    | Interest(number: nat)
    | Details(ref: Option<nat>, role: Option<Role>, name: Option<string>,
              settlement: Option<string>, address: Option<string>, floor: Option<int>)
    | ItemFacts(ref: Option<nat>, newItems: Option<seq<ItemInput>>, free: Option<bool>,
                working: Option<bool>, needsDisassembly: Option<bool>, smallWhole: Option<bool>,
                ovenType: Option<OvenType>, evacuation: Option<Evacuation>)
    | Counterparty(ref: Option<nat>, phone: Option<string>, name: Option<string>)
    | ApproveSelf(ref: Option<nat>)
    | ApproveSchedule(ref: Option<nat>, date: Date)
    | Select(number: nat)
    | Cancel(ref: Option<nat>, choice: CancelChoice)
    | Escalate(ref: Option<nat>, borderline: bool)
    | ContactCounterparty(ref: Option<nat>, contact: bool)
    | CounterpartyCandidate(ref: Option<nat>, candidatePhone: string, name: Option<string>)
    | ConfirmCounterparty(ref: Option<nat>, accept: bool)
    | Next
    | ClarifyDuplicate(number: nat)

  /** A text field that JavaScript would treat as truthy. */
  predicate Given(o: Option<string>) {
    o.Some? && o.value != ""
  }

  /** JavaScript white space. */
  predicate Blank(c: char) {
    || '\U{0009}' <= c <= '\U{000D}' || c == ' ' || c == '\U{00A0}' || c == '\U{1680}'
    || '\U{2000}' <= c <= '\U{200A}' || c in {'\U{2028}', '\U{2029}', '\U{202F}', '\U{205F}', '\U{3000}', '\U{FEFF}'}
  }

  /** The text without white space at either end. */
  function Trim(s: string): (t: string)
    ensures t == s || |t| < |s|
    ensures t != "" ==> !Blank(t[0]) && !Blank(t[|t| - 1])
    ensures t == "" <==> forall i :: 0 <= i < |s| ==> Blank(s[i])
  {
    if s == "" then s
    else if Blank(s[0]) then Trim(s[1..])
    else if Blank(s[|s| - 1]) then Trim(s[..|s| - 1])
    else s
  }

  /** The white space of JavaScript's patterns, by code point. */
  lemma BlankExactly(c: char)
    ensures Blank(c) <==>
              c as int in {9, 10, 11, 12, 13, 32, 160, 5760, 8192, 8193, 8194, 8195, 8196, 8197, 8198, 8199, 8200, 8201,
                           8202, 8232, 8233, 8239, 8287, 12288, 65279}
  {}

  predicate BlankOutside(s: string, i: nat, j: nat) {
    i <= j <= |s| && forall k :: 0 <= k < |s| && !(i <= k < j) ==> Blank(s[k])
  }

  lemma CutFront(s: string, i: nat, j: nat)
    requires s != "" && Blank(s[0]) && BlankOutside(s[1..], i, j)
    ensures BlankOutside(s, i + 1, j + 1) && s[1..][i..j] == s[i + 1..j + 1]
  {
    forall k | 0 <= k < i + 1 || j + 1 <= k < |s| ensures Blank(s[k]) {
      if k > 0 { assert s[1..][k - 1] == s[k]; }
    }
    assert s[1..][i..j] == s[i + 1..j + 1];
  }

  lemma CutBack(s: string, i: nat, j: nat)
    requires s != "" && Blank(s[|s| - 1]) && BlankOutside(s[..|s| - 1], i, j)
    ensures BlankOutside(s, i, j) && s[..|s| - 1][i..j] == s[i..j]
  {
    forall k | 0 <= k < i || j <= k < |s| ensures Blank(s[k]) {
      if k < |s| - 1 { assert s[..|s| - 1][k] == s[k]; }
    }
  }

  /** Trimming cuts off white space at both ends and nothing else. */
  lemma {:induction false} TrimExactly(s: string) returns (i: nat, j: nat)
    ensures BlankOutside(s, i, j) && Trim(s) == s[i..j]
    decreases |s|
  {
    if s == "" {
      i, j := 0, 0;
    } else if Blank(s[0]) {
      i, j := TrimExactly(s[1..]);
      CutFront(s, i, j);
      i, j := i + 1, j + 1;
    } else if Blank(s[|s| - 1]) {
      i, j := TrimExactly(s[..|s| - 1]);
      CutBack(s, i, j);
    } else {
      i, j := 0, |s|;
      assert s[0..|s|] == s;
    }
  }

  function FactsOfParty(p: Party): PartyFacts {
    PartyFacts(p.role, p.phone, p.name, p.settlement, p.address, p.floor)
  }

  function FactsOf(r: Request): Facts {
    Facts(seq(|r.parties|, i requires 0 <= i < |r.parties| => FactsOfParty(r.parties[i])), r.items)
  }
}
