/**
 * The emergency-contacts onboarding screen (`EmergencyContactsScreen`): a
 * list of three to five contacts edited in place, the phone input filter,
 * the count of usable contacts that enables Next, and the list Next hands on.
 */
module ContactsForm {
  import opened Common
  import opened Records
  import opened Validation

  const MIN_CONTACTS_REQUIRED := 3
  const MAX_CONTACTS_ALLOWED := 5
  const RELATIONSHIP_FRIEND := "Friend"
  const RELATIONSHIPS: seq<string> := ["Friend", "Family", "Other"]

  const BlankContact := EmergencyContact("", "", RELATIONSHIP_FRIEND)
  const InitialContacts: seq<EmergencyContact> := [BlankContact, BlankContact, BlankContact]

  /** The list stays between the minimum and the maximum size. */
  predicate SizeOk(cs: seq<EmergencyContact>) {
    MIN_CONTACTS_REQUIRED <= |cs| <= MAX_CONTACTS_ALLOWED
  }

  /** `updateContact(index, name, phone, relationship)`: a null field keeps its value. */
  function Updated(cs: seq<EmergencyContact>, index: nat, name: Option<string>, phone: Option<string>,
                   relationship: Option<string>): seq<EmergencyContact>
    requires index < |cs|
  {
    var c := cs[index];
    cs[index := EmergencyContact(name.GetOr(c.name), phone.GetOr(c.phone), relationship.GetOr(c.relationship))]
  }

  /** `addContact()` */
  function Added(cs: seq<EmergencyContact>): seq<EmergencyContact> {
    if |cs| < MAX_CONTACTS_ALLOWED then cs + [BlankContact] else cs
  }

  /** `removeContact(index)`; `removeAt` needs an index inside the list. */
  function Removed(cs: seq<EmergencyContact>, index: nat): seq<EmergencyContact>
    requires index < |cs|
  {
    if |cs| > MIN_CONTACTS_REQUIRED then cs[..index] + cs[index + 1..] else cs
  }

  /** The phone field accepts only up to ten digits. */
  predicate PhoneInputAccepted(text: string) {
    |text| <= PHONE_NUMBER_LENGTH && AllChars(text, IsDigit)
  }

  /** The phone field's `onValueChange`. */
  function PhoneEdited(cs: seq<EmergencyContact>, index: nat, text: string): seq<EmergencyContact>
    requires index < |cs|
  {
    if PhoneInputAccepted(text) then Updated(cs, index, None, Some(text), None) else cs
  }

  /** A contact counted by `validContacts` and kept by Next. */
  predicate Usable(c: EmergencyContact) {
    IsNotBlank(c.name) && ValidatePhone(c.phone)
  }

  /** The Next button's `filter`. */
  function UsableContacts(cs: seq<EmergencyContact>): (r: seq<EmergencyContact>)
    ensures |r| <= |cs|
    ensures forall i :: 0 <= i < |r| ==> Usable(r[i])
    ensures forall c :: c in r <==> c in cs && Usable(c)
  {
    if cs == [] then []
    else if Usable(cs[0]) then [cs[0]] + UsableContacts(cs[1..])
    else UsableContacts(cs[1..])
  }

  /** `validContacts`: the `count` of usable contacts. */
  function UsableCount(cs: seq<EmergencyContact>): nat {
    if cs == [] then 0 else (if Usable(cs[0]) then 1 else 0) + UsableCount(cs[1..])
  }

  /** `canProceed` */
  predicate CanProceed(cs: seq<EmergencyContact>) {
    UsableCount(cs) >= MIN_CONTACTS_REQUIRED
  }

  // ---------------------------------------------------------------------
  // Properties

  /** Only the edited entry changes, and only in the fields passed. */
  lemma UpdatedEffect(cs: seq<EmergencyContact>, index: nat, name: Option<string>, phone: Option<string>,
                      relationship: Option<string>)
    requires index < |cs|
    ensures var r := Updated(cs, index, name, phone, relationship);
      && |r| == |cs|
      && (forall j :: 0 <= j < |cs| && j != index ==> r[j] == cs[j])
      && r[index].name == (if name.Some? then name.value else cs[index].name)
      && r[index].phone == (if phone.Some? then phone.value else cs[index].phone)
      && r[index].relationship == (if relationship.Some? then relationship.value else cs[index].relationship)
  {
  }

  lemma AddedEffect(cs: seq<EmergencyContact>)
    ensures |cs| < MAX_CONTACTS_ALLOWED ==> Added(cs) == cs + [BlankContact]
    ensures |cs| >= MAX_CONTACTS_ALLOWED ==> Added(cs) == cs
  {
  }

  lemma RemovedEffect(cs: seq<EmergencyContact>, index: nat)
    requires index < |cs|
    ensures |cs| > MIN_CONTACTS_REQUIRED ==>
      |Removed(cs, index)| == |cs| - 1
      && (forall j :: 0 <= j < index ==> Removed(cs, index)[j] == cs[j])
      && (forall j :: index < j < |cs| ==> Removed(cs, index)[j - 1] == cs[j])
    ensures |cs| <= MIN_CONTACTS_REQUIRED ==> Removed(cs, index) == cs
  {
  }

  /** A rejected phone text leaves the list as it was; an accepted one is stored as typed. */
  lemma PhoneFilter(cs: seq<EmergencyContact>, index: nat, text: string)
    requires index < |cs|
    ensures !PhoneInputAccepted(text) ==> PhoneEdited(cs, index, text) == cs
    ensures PhoneInputAccepted(text) ==> PhoneEdited(cs, index, text)[index].phone == text
    ensures PhoneInputAccepted(text) <==>
      |text| <= 10 && forall i :: 0 <= i < |text| ==> '0' <= text[i] <= '9'
  {
  }

  lemma {:induction false} CountIsFilterLength(cs: seq<EmergencyContact>)
    ensures UsableCount(cs) == |UsableContacts(cs)|
  {
    if cs != [] {
      CountIsFilterLength(cs[1..]);
    }
  }

  lemma {:induction false} UsableContactsConcat(a: seq<EmergencyContact>, b: seq<EmergencyContact>)
    ensures UsableContacts(a + b) == UsableContacts(a) + UsableContacts(b)
  {
    if a == [] {
      assert a + b == b;
    } else {
      assert (a + b)[1..] == a[1..] + b;
      UsableContactsConcat(a[1..], b);
    }
  }

  /** Next keeps the list order: a usable `cs[i]` is passed at the position counted by the usable entries before it. */
  lemma {:induction false} UsableKeepsOrder(cs: seq<EmergencyContact>, i: nat)
    requires i < |cs| && Usable(cs[i])
    ensures var k := |UsableContacts(cs[..i])|;
      k < |UsableContacts(cs)| && UsableContacts(cs)[k] == cs[i]
  {
    assert cs == cs[..i] + [cs[i]] + cs[i + 1..];
    UsableContactsConcat(cs[..i] + [cs[i]], cs[i + 1..]);
    UsableContactsConcat(cs[..i], [cs[i]]);
    assert UsableContacts([cs[i]]) == [cs[i]] by {
      assert [cs[i]][1..] == [];
    }
  }

  /** Next is enabled exactly when it passes on at least three contacts. */
  lemma ProceedIff(cs: seq<EmergencyContact>)
    ensures CanProceed(cs) <==> |UsableContacts(cs)| >= MIN_CONTACTS_REQUIRED
  {
    CountIsFilterLength(cs);
  }

  /** The blank initial list cannot proceed. */
  lemma InitialCannotProceed()
    ensures SizeOk(InitialContacts) && UsableContacts(InitialContacts) == [] && !CanProceed(InitialContacts)
  {
    assert !Usable(BlankContact) by {
      assert !ValidatePhone("");
    }
    var cs := InitialContacts;
    assert cs[1..] == [BlankContact, BlankContact];
    assert cs[1..][1..] == [BlankContact];
    assert cs[1..][1..][1..] == [];
    assert UsableContacts(cs[1..][1..]) == [];
    assert UsableContacts(cs[1..]) == [];
    CountIsFilterLength(cs);
  }

  // ---------------------------------------------------------------------
  // What the screen can do

  /** The edits the screen offers: the name and phone fields, the relationship menu and the two buttons. */
  datatype Edit = EditName(index: nat, text: string)
                | EditPhone(index: nat, text: string)
                | PickRelationship(index: nat, rel: nat)
                | AddContact
                | RemoveContact(index: nat)

  /** An edit on an entry that exists (the screen only shows those). */
  predicate Applicable(cs: seq<EmergencyContact>, e: Edit) {
    match e
    case EditName(i, _) => i < |cs|
    case EditPhone(i, _) => i < |cs|
    case PickRelationship(i, r) => i < |cs| && r < |RELATIONSHIPS|
    case AddContact => true
    case RemoveContact(i) => i < |cs|
  }

  function ApplyEdit(cs: seq<EmergencyContact>, e: Edit): seq<EmergencyContact>
    requires Applicable(cs, e)
  {
    match e
    case EditName(i, t) => Updated(cs, i, Some(t), None, None)
    case EditPhone(i, t) => PhoneEdited(cs, i, t)
    case PickRelationship(i, r) => Updated(cs, i, None, None, Some(RELATIONSHIPS[r]))
    case AddContact => Added(cs)
    case RemoveContact(i) => Removed(cs, i)
  }

  /** Every stored phone is what the field accepts, and every relationship is one of the menu's. */
  predicate FieldsOk(cs: seq<EmergencyContact>) {
    forall i :: 0 <= i < |cs| ==> PhoneInputAccepted(cs[i].phone) && cs[i].relationship in RELATIONSHIPS
  }

  predicate ScreenInvariant(cs: seq<EmergencyContact>) {
    SizeOk(cs) && FieldsOk(cs)
  }

  lemma InitialInvariant()
    ensures ScreenInvariant(InitialContacts)
  {
    assert PhoneInputAccepted("");
  }

  /** Each edit keeps three to five contacts, phones of at most ten digits and menu relationships. */
  lemma EditKeepsInvariant(cs: seq<EmergencyContact>, e: Edit)
    requires ScreenInvariant(cs) && Applicable(cs, e)
    ensures ScreenInvariant(ApplyEdit(cs, e))
  {
    var r := ApplyEdit(cs, e);
    match e
    case EditName(i, t) =>
    case EditPhone(i, t) =>
    case PickRelationship(i, k) =>
    case AddContact =>
      if |cs| < MAX_CONTACTS_ALLOWED {
        assert PhoneInputAccepted("");
        assert forall j :: 0 <= j < |cs| ==> r[j] == cs[j];
      }
    case RemoveContact(i) =>
      if |cs| > MIN_CONTACTS_REQUIRED {
        assert forall j :: 0 <= j < |r| ==> r[j] == (if j < i then cs[j] else cs[j + 1]);
      }
  }

  /** Any number of edits keeps the invariant. */
  lemma {:induction false} EditsKeepInvariant(cs: seq<EmergencyContact>, es: seq<Edit>)
    requires ScreenInvariant(cs)
    ensures ScreenInvariant(ApplyAll(cs, es))
    decreases |es|
  {
    if es != [] && Applicable(cs, es[0]) {
      EditKeepsInvariant(cs, es[0]);
      EditsKeepInvariant(ApplyEdit(cs, es[0]), es[1..]);
    }
  }

  /** The list after `es`; an edit on a missing entry is not offered and stops the run. */
  function ApplyAll(cs: seq<EmergencyContact>, es: seq<Edit>): seq<EmergencyContact>
    decreases |es|
  {
    if es == [] || !Applicable(cs, es[0]) then cs else ApplyAll(ApplyEdit(cs, es[0]), es[1..])
  }

  // ---------------------------------------------------------------------
  // The screen state object

  class ContactsScreen {
    var contacts: seq<EmergencyContact>

    constructor ()
      ensures contacts == InitialContacts
    {
      contacts := InitialContacts;
    }

    method UpdateContact(index: nat, name: Option<string>, phone: Option<string>, relationship: Option<string>)
      requires index < |contacts|
      modifies this
      ensures contacts == Updated(old(contacts), index, name, phone, relationship)
    {
      var updated := contacts;
      var current := updated[index];
      updated := updated[index := EmergencyContact(name.GetOr(current.name), phone.GetOr(current.phone),
                                                   relationship.GetOr(current.relationship))];
      contacts := updated;
    }

    method AddContact()
      modifies this
      ensures contacts == Added(old(contacts))
    {
      if |contacts| < MAX_CONTACTS_ALLOWED {
        contacts := contacts + [BlankContact];
      }
    }

    method RemoveContact(index: nat)
      requires index < |contacts|
      modifies this
      ensures contacts == Removed(old(contacts), index)
    {
      if |contacts| > MIN_CONTACTS_REQUIRED {
        contacts := contacts[..index] + contacts[index + 1..];
      }
    }

    method OnPhoneChange(index: nat, text: string)
      requires index < |contacts|
      modifies this
      ensures contacts == PhoneEdited(old(contacts), index, text)
    {
      if |text| <= PHONE_NUMBER_LENGTH && AllChars(text, IsDigit) {
        UpdateContact(index, None, Some(text), None);
      }
    }

    /** The Next button: the usable contacts, kept in order. */
    method OnNext() returns (chosen: seq<EmergencyContact>)
      ensures chosen == UsableContacts(contacts)
    {
      chosen := [];
      var i := 0;
      while i < |contacts|
        invariant 0 <= i <= |contacts|
        invariant chosen == UsableContacts(contacts[..i])
      {
        UsableContactsConcat(contacts[..i], [contacts[i]]);
        assert contacts[..i + 1] == contacts[..i] + [contacts[i]];
        assert UsableContacts([contacts[i]]) == (if Usable(contacts[i]) then [contacts[i]] else []) by {
          assert [contacts[i]][1..] == [];
        }
        if IsNotBlank(contacts[i].name) && ValidatePhone(contacts[i].phone) {
          chosen := chosen + [contacts[i]];
        }
        i := i + 1;
      }
      assert contacts[..|contacts|] == contacts;
    }
  }
}
