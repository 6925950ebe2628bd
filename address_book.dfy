/** The delivery-address book screen: a list of saved addresses with add,
    confirmed delete and set-default, and the single-default invariant
    those three keep. Address ids come from the clock (`Date.now()`), so
    they are a parameter of the add operation here. */
module Addresses {
  import opened Common

  datatype Address = Address(id: string, labelText: string, address: string, isDefault: bool)

  /** What the add handler tells the user. */
  datatype AddOutcome =
    | Added                      // 'Success' / 'Address added successfully'
    | Rejected(message: string)  // 'Invalid Input' / message

  /** The two buttons of the delete confirmation. */
  datatype Choice = Cancel | Confirm

  const LabelMissing := "Please enter an address label"
  const AddressMissing := "Please enter an address"

  // ---------------------------------------------------------------------
  // Vocabulary over lists of addresses

  predicate HasId(book: seq<Address>, id: string) {
    exists k :: 0 <= k < |book| && book[k].id == id
  }

  predicate UniqueIds(book: seq<Address>) {
    forall i, j :: 0 <= i < j < |book| ==> book[i].id != book[j].id
  }

  function DefaultCount(book: seq<Address>): nat {
    if book == [] then 0 else (if book[0].isDefault then 1 else 0) + DefaultCount(book[1..])
  }

  /** The invariant the screen maintains: ids are unique and a non-empty
      book has exactly one default entry. */
  predicate WellFormed(book: seq<Address>) {
    UniqueIds(book) && (book != [] ==> DefaultCount(book) == 1)
  }

  /** Same entries in the same positions, default flags aside. */
  predicate SameEntries(a: seq<Address>, b: seq<Address>) {
    |a| == |b| &&
    forall k :: 0 <= k < |a| ==>
      a[k].id == b[k].id && a[k].labelText == b[k].labelText && a[k].address == b[k].address
  }

  // ---------------------------------------------------------------------
  // The three operations on values

  /** The validation of the add form: the label is checked first, then the
      address; each must be non-blank after trimming. `!s.trim()` holds
      exactly for all-blank text, so the test is written on `AllWhitespace`;
      `AddErrorTrims` states it with `Trim`. */
  function AddError(labelText: string, address: string): (r: Option<string>)
    ensures r == Some(LabelMissing) <==> AllWhitespace(labelText)
    ensures r == Some(AddressMissing) <==> !AllWhitespace(labelText) && AllWhitespace(address)
    ensures r == None <==> !AllWhitespace(labelText) && !AllWhitespace(address)
  {
    if AllWhitespace(labelText) then Some(LabelMissing)
    else if AllWhitespace(address) then Some(AddressMissing)
    else None
  }

  /** The handler's own test, `!newLabel.trim()` then `!newAddress.trim()`,
      gives the same answer. */
  lemma AddErrorTrims(labelText: string, address: string)
    ensures AddError(labelText, address) ==
              if Trim(labelText) == [] then Some(LabelMissing)
              else if Trim(address) == [] then Some(AddressMissing)
              else None
  {
    TrimEmptyIffBlank(labelText);
    TrimEmptyIffBlank(address);
  }

  /** The entry a successful add creates. */
  function NewEntry(book: seq<Address>, id: string, labelText: string, address: string): (e: Address)
    ensures e.id == id
    ensures e.isDefault <==> book == []
    ensures e.labelText == "" <==> AllWhitespace(labelText)
    ensures e.address == "" <==> AllWhitespace(address)
  {
    TrimEmptyIffBlank(labelText);
    TrimEmptyIffBlank(address);
    Address(id, Trim(labelText), Trim(address), |book| == 0)
  }

  /** `addresses.filter(addr => addr.id !== id)`. */
  function Filter(book: seq<Address>, id: string): (r: seq<Address>)
    ensures |r| <= |book|
    ensures forall a :: a in r ==> a in book && a.id != id
    ensures forall a :: a in book && a.id != id ==> a in r
  {
    if book == [] then []
    else if book[0].id == id then Filter(book[1..], id)
    else [book[0]] + Filter(book[1..], id)
  }

  /** `addresses.find(a => a.id === id)`. */
  function FirstWithId(book: seq<Address>, id: string): (r: Option<Address>)
    ensures r.None? <==> !HasId(book, id)
    ensures r.Some? ==> r.value in book && r.value.id == id
  {
    if book == [] then None
    else if book[0].id == id then Some(book[0])
    else
      var r := FirstWithId(book[1..], id);
      assert HasId(book[1..], id) ==> HasId(book, id);
      assert HasId(book, id) && book[0].id != id ==> HasId(book[1..], id) by {
        if HasId(book, id) && book[0].id != id {
          var k :| 0 <= k < |book| && book[k].id == id;
          assert book[1..][k - 1].id == id;
        }
      }
      r
  }

  /** The confirmed-delete result: the list without the entries carrying
      `id`; when the (first) removed entry was the default and entries
      remain, the first remaining entry is promoted to default. */
  function Removed(book: seq<Address>, id: string): (r: seq<Address>)
    ensures |r| == |Filter(book, id)|
    ensures forall x :: HasId(r, x) <==> HasId(book, x) && x != id
    ensures FirstWithId(book, id).Some? && FirstWithId(book, id).value.isDefault && r != [] ==> r[0].isDefault
    ensures !(FirstWithId(book, id).Some? && FirstWithId(book, id).value.isDefault) ==> r == Filter(book, id)
  {
    var rest := Filter(book, id);
    var found := FirstWithId(book, id);
    FilterIds(book, id);
    if |rest| > 0 && found.Some? && found.value.isDefault then
      var r := rest[0 := rest[0].(isDefault := true)];
      assert forall k :: 0 <= k < |r| ==> r[k].id == rest[k].id;
      r
    else rest
  }

  /** The ids left after filtering are the others. */
  lemma FilterIds(book: seq<Address>, id: string)
    ensures forall x :: HasId(Filter(book, id), x) <==> HasId(book, x) && x != id
  {
    var r := Filter(book, id);
    forall x ensures HasId(r, x) <==> HasId(book, x) && x != id {
      if HasId(r, x) {
        var k :| 0 <= k < |r| && r[k].id == x;
        assert r[k] in r;
        var j :| 0 <= j < |book| && book[j] == r[k];
      }
      if HasId(book, x) && x != id {
        var j :| 0 <= j < |book| && book[j].id == x;
        assert book[j] in book;
        var k :| 0 <= k < |r| && r[k] == book[j];
      }
    }
  }

  /** `addrs.map(addr => ({...addr, isDefault: addr.id === id}))`. */
  function WithDefault(book: seq<Address>, id: string): (r: seq<Address>)
    ensures SameEntries(r, book)
    ensures forall k :: 0 <= k < |r| ==> (r[k].isDefault <==> book[k].id == id)
  {
    if book == [] then []
    else [book[0].(isDefault := book[0].id == id)] + WithDefault(book[1..], id)
  }

  // ---------------------------------------------------------------------
  // Properties of the operations

  lemma {:induction false} DefaultCountConcat(a: seq<Address>, b: seq<Address>)
    ensures DefaultCount(a + b) == DefaultCount(a) + DefaultCount(b)
  {
    if a != [] {
      assert (a + b)[0] == a[0] && (a + b)[1..] == a[1..] + b;
      DefaultCountConcat(a[1..], b);
    } else {
      assert a + b == b;
    }
  }

  lemma {:induction false} FilterAbsent(book: seq<Address>, id: string)
    requires !HasId(book, id)
    ensures Filter(book, id) == book
  {
    if book != [] {
      forall m | 0 <= m < |book[1..]| ensures book[1..][m].id != id {
        assert book[1..][m] == book[m + 1];
      }
      FilterAbsent(book[1..], id);
    }
  }

  /** Filtering distributes over concatenation, so it keeps the surviving
      entries in their original order. */
  lemma {:induction false} FilterConcat(a: seq<Address>, b: seq<Address>, id: string)
    ensures Filter(a + b, id) == Filter(a, id) + Filter(b, id)
  {
    if a != [] {
      var ab := a + b;
      assert ab[0] == a[0] && ab[1..] == a[1..] + b;
      FilterConcat(a[1..], b, id);
      if a[0].id != id {
        assert Filter(ab, id) == [a[0]] + (Filter(a[1..], id) + Filter(b, id));
      }
    } else {
      assert a + b == b;
    }
  }

  lemma {:induction false} FilterKeepsUniqueIds(book: seq<Address>, id: string)
    requires UniqueIds(book)
    ensures UniqueIds(Filter(book, id))
  {
    if book != [] {
      FilterKeepsUniqueIds(book[1..], id);
      if book[0].id != id {
        FilterIds(book[1..], id);
        forall m | 0 <= m < |book[1..]| ensures book[1..][m].id != book[0].id {
          assert book[1..][m] == book[m + 1];
        }
        ConsKeepsUniqueIds(book[0], Filter(book[1..], id));
      }
    }
  }

  lemma ConsKeepsUniqueIds(e: Address, rest: seq<Address>)
    requires UniqueIds(rest) && !HasId(rest, e.id)
    ensures UniqueIds([e] + rest)
  {
    var r := [e] + rest;
    forall i, j | 0 <= i < j < |r| ensures r[i].id != r[j].id {
      assert r[j] == rest[j - 1];
      if i > 0 {
        assert r[i] == rest[i - 1];
      }
    }
  }


  /** With unique ids, removing the entry at position k removes exactly
      its own default flag from the count, and `find` returns it. */
  lemma {:induction false} FilterPresent(book: seq<Address>, id: string, k: nat)
    requires UniqueIds(book) && k < |book| && book[k].id == id
    ensures FirstWithId(book, id) == Some(book[k])
    ensures DefaultCount(Filter(book, id)) + (if book[k].isDefault then 1 else 0) == DefaultCount(book)
  {
    if k == 0 {
      forall m | 0 <= m < |book[1..]| ensures book[1..][m].id != id {
        assert book[1..][m] == book[m + 1];
      }
      FilterAbsent(book[1..], id);
    } else {
      assert book[0].id != id;
      FilterPresent(book[1..], id, k - 1);
    }
  }

  /** `map` with `isDefault: addr.id === id` marks as many entries as
      carry the id: one, when ids are unique and the id is present. */
  lemma {:induction false} WithDefaultCount(book: seq<Address>, id: string)
    requires UniqueIds(book)
    ensures DefaultCount(WithDefault(book, id)) == if HasId(book, id) then 1 else 0
  {
    if book != [] {
      var r := WithDefault(book, id);
      assert r[1..] == WithDefault(book[1..], id);
      WithDefaultCount(book[1..], id);
      if book[0].id == id {
        forall m | 0 <= m < |book[1..]| ensures book[1..][m].id != id {
          assert book[1..][m] == book[m + 1];
        }
      } else {
        assert HasId(book, id) <==> HasId(book[1..], id) by {
          if HasId(book, id) {
            var m :| 0 <= m < |book| && book[m].id == id;
            assert book[1..][m - 1].id == id;
          }
          if HasId(book[1..], id) {
            var m :| 0 <= m < |book[1..]| && book[1..][m].id == id;
            assert book[m + 1].id == id;
          }
        }
      }
    }
  }

  /** A successful add appends one entry holding the trimmed inputs; it is
      the default exactly when the book was empty, and it keeps the
      invariant when the clock-derived id is new. */
  lemma AddKeepsWellFormed(book: seq<Address>, id: string, labelText: string, address: string)
    requires WellFormed(book) && !HasId(book, id)
    ensures WellFormed(book + [NewEntry(book, id, labelText, address)])
  {
    AppendKeepsWellFormed(book, NewEntry(book, id, labelText, address));
  }

  lemma AppendKeepsWellFormed(book: seq<Address>, e: Address)
    requires WellFormed(book) && !HasId(book, e.id) && e.isDefault == (book == [])
    ensures WellFormed(book + [e])
  {
    AppendKeepsUniqueIds(book, e);
    DefaultCountConcat(book, [e]);
    assert [e][1..] == [];
  }

  lemma AppendKeepsUniqueIds(book: seq<Address>, e: Address)
    requires UniqueIds(book) && !HasId(book, e.id)
    ensures UniqueIds(book + [e])
  {
    var r := book + [e];
    forall i, j | 0 <= i < j < |r| ensures r[i].id != r[j].id {
      assert r[i] == book[i];
      if j < |book| {
        assert r[j] == book[j];
      }
    }
  }

  /** Deleting keeps the invariant: if the removed entry was the default
      and others remain, the promoted first entry is the only default. */
  lemma RemovedKeepsWellFormed(book: seq<Address>, id: string)
    requires WellFormed(book)
    ensures WellFormed(Removed(book, id))
  {
    var rest := Filter(book, id);
    FilterKeepsUniqueIds(book, id);
    if !HasId(book, id) {
      FilterAbsent(book, id);
    } else {
      var k :| 0 <= k < |book| && book[k].id == id;
      FilterPresent(book, id, k);
      if |rest| > 0 && book[k].isDefault {
        PromoteFirstKeepsWellFormed(rest);
      }
    }
  }

  /** Flagging the first entry of a book with unique ids and no default
      leaves that entry the only default. */
  lemma PromoteFirstKeepsWellFormed(rest: seq<Address>)
    requires UniqueIds(rest) && rest != [] && DefaultCount(rest) == 0
    ensures WellFormed(rest[0 := rest[0].(isDefault := true)])
  {
    var r := rest[0 := rest[0].(isDefault := true)];
    assert r == [r[0]] + rest[1..] && rest == [rest[0]] + rest[1..];
    DefaultCountConcat([r[0]], rest[1..]);
    DefaultCountConcat([rest[0]], rest[1..]);
    assert SameEntries(r, rest);
  }

  /** Deleting a non-default entry leaves every remaining flag as it was. */
  lemma RemoveNonDefaultIsFilter(book: seq<Address>, id: string)
    requires forall a :: a in book && a.id == id ==> !a.isDefault
    ensures Removed(book, id) == Filter(book, id)
  {
  }

  /** Deleting changes the default flag of at most the first survivor, and
      keeps every survivor's id, labelText and address in order. */
  lemma RemovedShape(book: seq<Address>, id: string)
    ensures SameEntries(Removed(book, id), Filter(book, id))
    ensures forall k :: 1 <= k < |Removed(book, id)| ==> Removed(book, id)[k] == Filter(book, id)[k]
  {
  }

  /** Setting a present default leaves exactly that entry marked. */
  lemma SetDefaultKeepsWellFormed(book: seq<Address>, id: string)
    requires WellFormed(book) && HasId(book, id)
    ensures WellFormed(WithDefault(book, id))
  {
    WithDefaultCount(book, id);
    assert SameEntries(WithDefault(book, id), book);
  }

  /** Setting an id that is not present clears every default. */
  lemma SetDefaultAbsentClears(book: seq<Address>, id: string)
    requires !HasId(book, id)
    ensures forall a :: a in WithDefault(book, id) ==> !a.isDefault
  {
    var r := WithDefault(book, id);
    forall a | a in r ensures !a.isDefault {
      var k :| 0 <= k < |r| && r[k] == a;
      assert book[k].id != id;
    }
  }

  // ---------------------------------------------------------------------
  // Any sequence of user actions

  datatype Action =
    | AddAction(id: string, labelText: string, address: string)
    | DeleteAction(id: string, choice: Choice)
    | SetDefaultAction(id: string)

  function Step(book: seq<Address>, act: Action): seq<Address> {
    match act
    case AddAction(id, labelText, address) =>
      if AddError(labelText, address).Some? then book else book + [NewEntry(book, id, labelText, address)]
    case DeleteAction(id, choice) =>
      if choice == Cancel then book else Removed(book, id)
    case SetDefaultAction(id) => WithDefault(book, id)
  }

  /** What the screen makes possible: a fresh clock value for each add, and
      the 'Set as Default' button only on present, non-default entries. */
  predicate Possible(book: seq<Address>, act: Action) {
    match act
    case AddAction(id, _, _) => !HasId(book, id)
    case DeleteAction(_, _) => true
    case SetDefaultAction(id) => exists a :: a in book && a.id == id && !a.isDefault
  }

  function Run(book: seq<Address>, acts: seq<Action>): seq<Address>
    decreases |acts|
  {
    if acts == [] then book else Run(Step(book, acts[0]), acts[1..])
  }

  predicate PossibleRun(book: seq<Address>, acts: seq<Action>)
    decreases |acts|
  {
    acts == [] || (Possible(book, acts[0]) && PossibleRun(Step(book, acts[0]), acts[1..]))
  }

  lemma StepKeepsWellFormed(book: seq<Address>, act: Action)
    requires WellFormed(book) && Possible(book, act)
    ensures WellFormed(Step(book, act))
  {
    match act
    case AddAction(id, labelText, address) =>
      if AddError(labelText, address).None? { AddKeepsWellFormed(book, id, labelText, address); }
    case DeleteAction(id, choice) =>
      if choice == Confirm { RemovedKeepsWellFormed(book, id); }
    case SetDefaultAction(id) =>
      var a :| a in book && a.id == id && !a.isDefault;
      SetDefaultKeepsWellFormed(book, id);
  }

  /** Starting from the empty book, every sequence of actions the screen
      allows leaves exactly one default whenever the book is non-empty. */
  lemma {:induction false} RunKeepsWellFormed(book: seq<Address>, acts: seq<Action>)
    requires WellFormed(book) && PossibleRun(book, acts)
    ensures WellFormed(Run(book, acts))
    decreases |acts|
  {
    if acts != [] {
      StepKeepsWellFormed(book, acts[0]);
      RunKeepsWellFormed(Step(book, acts[0]), acts[1..]);
    }
  }

  lemma FromEmptyExactlyOneDefault(acts: seq<Action>)
    requires PossibleRun([], acts)
    ensures Run([], acts) != [] ==> DefaultCount(Run([], acts)) == 1
  {
    RunKeepsWellFormed([], acts);
  }

  // ---------------------------------------------------------------------
  // The screen's state

  class AddressBookScreen {
    var addresses: seq<Address>
    var showAddAddress: bool
    var newLabel: string
    var newAddress: string

    constructor ()
      ensures addresses == [] && !showAddAddress && newLabel == "" && newAddress == ""
    {
      addresses := [];
      showAddAddress := false;
      newLabel := "";
      newAddress := "";
    }

    /** 'Add New Address' opens the form. */
    method OpenForm()
      modifies this`showAddAddress
      ensures showAddAddress
    {
      showAddAddress := true;
    }

    /** Typing into the label input. */
    method TypeLabel(text: string)
      modifies this`newLabel
      ensures newLabel == text
    {
      newLabel := text;
    }

    /** Typing into the address input. */
    method TypeAddress(text: string)
      modifies this`newAddress
      ensures newAddress == text
    {
      newAddress := text;
    }

    /** The form's 'Cancel' closes it and clears both inputs; the book is
        left alone. */
    method CancelForm()
      modifies this`showAddAddress, this`newLabel, this`newAddress
      ensures !showAddAddress && newLabel == "" && newAddress == ""
    {
      showAddAddress := false;
      newLabel, newAddress := "", "";
    }

    /** `handleAddAddress`, with `now` standing for `Date.now().toString()`. */
    method HandleAddAddress(now: string) returns (outcome: AddOutcome)
      modifies this
      ensures outcome.Rejected? ==> unchanged(this)
      ensures outcome.Rejected? <==> AddError(old(newLabel), old(newAddress)).Some?
      ensures outcome.Rejected? ==> AddError(old(newLabel), old(newAddress)) == Some(outcome.message)
      ensures outcome == Added ==>
        && addresses == old(addresses) + [NewEntry(old(addresses), now, old(newLabel), old(newAddress))]
        && !showAddAddress && newLabel == "" && newAddress == ""
    {
      var err := AddError(newLabel, newAddress);
      if err.Some? {
        outcome := Rejected(err.value);
      } else {
        addresses := addresses + [NewEntry(addresses, now, newLabel, newAddress)];
        showAddAddress, newLabel, newAddress := false, "", "";
        outcome := Added;
      }
    }

    /** `handleDeleteAddress` followed by the user's choice in the prompt.
        The filtered list is stored first and its first entry is then
        flagged in place, as the handler does. */
    method HandleDeleteAddress(id: string, choice: Choice)
      modifies this`addresses
      ensures choice == Cancel ==> addresses == old(addresses)
      ensures choice == Confirm ==> addresses == Removed(old(addresses), id)
    {
      if choice == Cancel {
        return;
      }
      var updated := Filter(addresses, id);
      var wasDefault := FirstWithId(addresses, id);
      addresses := updated;
      if |updated| > 0 && wasDefault.Some? && wasDefault.value.isDefault {
        addresses := addresses[0 := addresses[0].(isDefault := true)];
      }
    }

    /** `handleSetDefault`. */
    method HandleSetDefault(id: string)
      modifies this`addresses
      ensures SameEntries(addresses, old(addresses))
      ensures forall k :: 0 <= k < |addresses| ==> (addresses[k].isDefault <==> addresses[k].id == id)
    {
      addresses := WithDefault(addresses, id);
    }
  }
}
