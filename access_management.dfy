/** The access-management panel: the account's personal fields behind a
    lock, an unlock that goes through a (simulated) server round trip outside
    testing mode, and the sections shown only once unlocked. */
module AccessManagement {

  datatype Field = Name | PhoneNumber | MainEmail | RecoveryEmail | AntiPhishing

  const Fields: seq<Field> := [Name, PhoneNumber, MainEmail, RecoveryEmail, AntiPhishing]

  datatype InputType = PasswordInput | TextInput | EmailInput

  datatype FieldView = FieldView(field: Field, inputType: InputType, disabled: bool)

  /** A field is disabled and masked while locked; unlocked, the two email
      fields are email inputs and the others text inputs. */
  function ViewField(f: Field, locked: bool): (v: FieldView)
    ensures v.field == f && v.disabled == locked
    ensures v.inputType == PasswordInput <==> locked
    ensures !locked ==> (v.inputType == EmailInput <==> f == MainEmail || f == RecoveryEmail)
  {
    var unlockedType := if f == MainEmail || f == RecoveryEmail then EmailInput else TextInput;
    FieldView(f, if locked then PasswordInput else unlockedType, locked)
  }

  /** What the panel shows. `exportSection` stands for the export button and
      the secret-key step together. */
  datatype PanelView = PanelView(
    backdropOpen: bool,
    lockShownLocked: bool,
    fields: seq<FieldView>,
    exportSection: bool,
    stopPremium: bool)

  function Render(locked: bool, loading: bool, testing: bool, role: string): (v: PanelView)
    ensures v.backdropOpen == loading && v.lockShownLocked == locked
    ensures |v.fields| == |Fields|
    ensures forall k :: 0 <= k < |v.fields| ==>
      v.fields[k] == ViewField(Fields[k], locked)
    ensures v.exportSection <==> !locked && !testing
    ensures v.stopPremium <==> v.exportSection && role == "premium"
  {
    var fields := seq(|Fields|, k requires 0 <= k < |Fields| => ViewField(Fields[k], locked));
    PanelView(loading, locked, fields, !locked && !testing, !locked && !testing && role == "premium")
  }

  class Panel {
    const testing: bool
    /** The role of the account shown (the test fixture's user). */
    const role: string

    var locked: bool
    var loading: bool
    /** Scheduled completions, each with the `locked` value it captured. */
    var pending: seq<bool>

    /** Testing mode schedules nothing, and nothing is loading once every
        scheduled completion has run. */
    ghost predicate Valid()
      reads this
    {
      (testing ==> pending == []) && (pending == [] ==> !loading)
    }

    function View(): PanelView
      reads this
    {
      Render(locked, loading, testing, role)
    }

    constructor (testing: bool, role: string)
      ensures Valid()
      ensures this.testing == testing && this.role == role
      ensures locked && !loading && pending == []
    {
      this.testing := testing;
      this.role := role;
      locked := true;
      loading := false;
      pending := [];
    }

    /** The lock button: in testing mode the lock flips at once; otherwise
        loading starts and a completion is scheduled. */
    method CallApi()
      requires Valid()
      modifies this
      ensures Valid()
      ensures testing ==> locked == !old(locked) && loading == old(loading) && pending == old(pending)
      ensures !testing ==> locked == old(locked) && loading && pending == old(pending) + [old(locked)]
    {
      if !testing {
        loading := true;
        pending := pending + [locked];
      } else {
        locked := !locked;
      }
    }

    /** The earliest scheduled completion runs: the lock becomes the negation
        of the value it captured and loading ends. */
    method Complete()
      requires Valid() && pending != []
      modifies this
      ensures Valid()
      ensures locked == !old(pending[0]) && !loading && pending == old(pending[1..])
    {
      locked := !pending[0];
      loading := false;
      pending := pending[1..];
    }

    /** One press followed by its completion, outside testing mode: the lock
        flips exactly once and the panel is idle again. */
    method Toggle()
      requires Valid() && !testing && pending == []
      modifies this
      ensures Valid()
      ensures locked == !old(locked) && !loading && pending == []
    {
      CallApi();
      Complete();
    }
  }
}
