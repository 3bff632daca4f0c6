/** The login-option navigator: step 1 lists the verification methods, step 2
    shows the chosen method's form with a way back. */
module LoginOptions {
  import opened Common

  /** The form a verification option opens. */
  datatype LoginForm = TwoFactorCodeForm | EmailCodeForm(isRecovery: bool) | SecurityCodeForm

  /** Option-to-form dispatch; an unknown option falls back to the
      two-factor form. */
  function ShowOptions(option: int): (form: LoginForm)
    ensures form.EmailCodeForm? <==> option == 1 || option == 2
    ensures form.EmailCodeForm? ==> (form.isRecovery <==> option == 2)
    ensures form.SecurityCodeForm? <==> option == 3
    ensures form.TwoFactorCodeForm? <==> option != 1 && option != 2 && option != 3
  {
    match option
    case 0 => TwoFactorCodeForm
    case 1 => EmailCodeForm(false)
    case 2 => EmailCodeForm(true)
    case 3 => SecurityCodeForm
    case _ => TwoFactorCodeForm
  }

  /** The endpoint the forms submit to. */
  function Endpoint(endpointAlt: bool): (endpoint: string)
    ensures endpoint == "/login" <==> !endpointAlt
    ensures endpointAlt ==> endpoint == "/verify-info"
  {
    if endpointAlt then "/verify-info" else "/login"
  }

  /** What every form receives from the navigator. */
  datatype FormProps = FormProps(isRobot: bool, testing: bool, endpoint: string, user: Option<User>)

  datatype NavState = NavState(activeStep: int, activeOption: int)

  const Initial: NavState := NavState(1, 0)

  /** A user action: an option button (index into the option list) or the
      back button. */
  datatype Control = Next(option: int) | Back

  /** Option buttons are rendered at step 1 only, and are disabled for a
      robot; the back button is rendered at step 2 only. `optionCount` is the
      length of the option list. */
  predicate IsOffered(s: NavState, c: Control, optionCount: nat, isRobot: bool)
  {
    match c
    case Next(i) => s.activeStep == 1 && !isRobot && 0 <= i < optionCount
    case Back => s.activeStep == 2
  }

  /** The effect of a control on the navigator state. */
  function Apply(s: NavState, c: Control): NavState
  {
    match c
    case Next(i) => NavState(s.activeStep + 1, i)
    case Back => NavState(s.activeStep - 1, s.activeOption)
  }

  /** The effect of a sequence of controls, first to last. */
  function Run(s: NavState, cs: seq<Control>): NavState
    decreases |cs|
  {
    if cs == [] then s else Run(Apply(s, cs[0]), cs[1..])
  }

  /** Every control of the sequence was on screen when it was pressed. */
  predicate OfferedTrace(s: NavState, cs: seq<Control>, optionCount: nat, isRobot: bool)
    decreases |cs|
  {
    cs == [] || (IsOffered(s, cs[0], optionCount, isRobot) && OfferedTrace(Apply(s, cs[0]), cs[1..], optionCount, isRobot))
  }

  /** The step is 1 or 2, and at step 2 the active option is a listed one. */
  predicate InSteps(s: NavState, optionCount: nat)
  {
    (s.activeStep == 1 || s.activeStep == 2) && (s.activeStep == 2 ==> 0 <= s.activeOption < optionCount)
  }

  /** Any sequence of on-screen presses from a valid state keeps the step in
      {1, 2} and the shown option among the listed ones. */
  lemma {:induction false} OfferedTraceStaysInSteps(s: NavState, cs: seq<Control>, optionCount: nat, isRobot: bool)
    requires InSteps(s, optionCount) && OfferedTrace(s, cs, optionCount, isRobot)
    ensures InSteps(Run(s, cs), optionCount)
    decreases |cs|
  {
    if cs != [] {
      OfferedTraceStaysInSteps(Apply(s, cs[0]), cs[1..], optionCount, isRobot);
    }
  }

  /** A robot cannot press any option button, so it never leaves the list. */
  lemma RobotStaysOnList(cs: seq<Control>, optionCount: nat)
    requires OfferedTrace(Initial, cs, optionCount, true)
    ensures cs == [] && Run(Initial, cs) == Initial
  {
  }

  /** What the navigator renders. */
  datatype LoginView =
    | OptionList(count: nat, disabled: bool)
    | FormStep(form: LoginForm, props: FormProps)
    | NothingShown

  function Render(s: NavState, optionCount: nat, props: FormProps): (v: LoginView)
    ensures v.OptionList? <==> s.activeStep == 1
    ensures v.FormStep? <==> s.activeStep == 2
    ensures v.OptionList? ==> v.count == optionCount && v.disabled == props.isRobot
    ensures v.FormStep? ==> v.form == ShowOptions(s.activeOption) && v.props == props
  {
    if s.activeStep == 1 then OptionList(optionCount, props.isRobot)
    else if s.activeStep == 2 then FormStep(ShowOptions(s.activeOption), props)
    else NothingShown
  }

  /** Along on-screen presses from the initial state, the navigator always
      shows the option list or the form of a listed option. */
  lemma {:induction false} ShownFormIsListed(cs: seq<Control>, optionCount: nat, props: FormProps)
    requires OfferedTrace(Initial, cs, optionCount, props.isRobot)
    ensures var v := Render(Run(Initial, cs), optionCount, props);
      v.OptionList? || (v.FormStep? && v.form == ShowOptions(Run(Initial, cs).activeOption) &&
                        0 <= Run(Initial, cs).activeOption < optionCount)
  {
    OfferedTraceStaysInSteps(Initial, cs, optionCount, props.isRobot);
  }

  /** With at most four options, the active option at step 2 is one of the
      dispatch's named cases 0-3, so its fallback branch is never what is
      shown. */
  lemma {:induction false} FallbackNeverShown(cs: seq<Control>, optionCount: nat, isRobot: bool)
    requires optionCount <= 4 && OfferedTrace(Initial, cs, optionCount, isRobot)
    ensures Run(Initial, cs).activeStep == 2 ==> 0 <= Run(Initial, cs).activeOption <= 3
  {
    OfferedTraceStaysInSteps(Initial, cs, optionCount, isRobot);
  }

  /** Going back after choosing an option renders the list exactly as before:
      the remembered option leaves no trace at step 1. */
  lemma BackAfterNext(s: NavState, option: int, optionCount: nat, props: FormProps)
    requires s.activeStep == 1
    ensures Run(s, [Next(option), Back]).activeStep == 1
    ensures Render(Run(s, [Next(option), Back]), optionCount, props) == Render(s, optionCount, props)
  {
    var cs := [Next(option), Back];
    assert cs[1..] == [Back] && [Back][1..] == [];
    assert Run(s, cs) == Apply(Apply(s, Next(option)), Back);
  }

  class Navigator {
    const optionCount: nat
    const isRobot: bool
    const testing: bool
    const endpointAlt: bool

    var activeStep: int
    var activeOption: int
    var user: Option<User>

    function State(): NavState
      reads this
    {
      NavState(activeStep, activeOption)
    }

    function Props(): FormProps
      reads this
    {
      FormProps(isRobot, testing, Endpoint(endpointAlt), user)
    }

    function View(): LoginView
      reads this
    {
      Render(State(), optionCount, Props())
    }

    constructor (optionCount: nat, isRobot: bool, testing: bool, endpointAlt: bool)
      ensures State() == Initial && user == None
      ensures this.optionCount == optionCount && this.isRobot == isRobot
      ensures this.testing == testing && this.endpointAlt == endpointAlt
    {
      this.optionCount := optionCount;
      this.isRobot := isRobot;
      this.testing := testing;
      this.endpointAlt := endpointAlt;
      activeStep := 1;
      activeOption := 0;
      user := None;
    }

    /** The mount effect: with a token, the cached user (if any) is loaded;
        `dbUser` is what the database returns. */
    method Mount(token: Option<string>, dbUser: Option<User>)
      modifies this
      ensures user == (if Truthy(token) && dbUser.Some? then dbUser else old(user))
      ensures State() == old(State())
    {
      if Truthy(token) {
        if dbUser.Some? {
          user := dbUser;
        }
      }
    }

    method HandleNext(option: int)
      modifies this
      ensures activeStep == old(activeStep) + 1 && activeOption == option && user == old(user)
    {
      activeStep := activeStep + 1;
      activeOption := option;
    }

    method HandleBack()
      modifies this
      ensures activeStep == old(activeStep) - 1 && activeOption == old(activeOption) && user == old(user)
    {
      activeStep := activeStep - 1;
    }

    /** A press on a control that is on screen. */
    method Press(c: Control)
      requires IsOffered(State(), c, optionCount, isRobot)
      modifies this
      ensures State() == Apply(old(State()), c) && user == old(user)
      ensures old(InSteps(State(), optionCount)) ==> InSteps(State(), optionCount)
    {
      match c
      case Next(i) => HandleNext(i);
      case Back => HandleBack();
    }
  }
}
