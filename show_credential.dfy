/** The credential card: the company name, a lock toggle, and the email
    sub-record rendered with the current lock state when the credential has
    one. */
module ShowCredential {
  import opened Common

  datatype EmailPanel = EmailPanel(email: EmailCredential, locked: bool)

  datatype CardView = CardView(title: string, lockShownLocked: bool, emailPanel: Option<EmailPanel>)

  function Render(credential: Credential, locked: bool): (v: CardView)
    ensures v.title == credential.companyName && v.lockShownLocked == locked
    ensures v.emailPanel.Some? <==> credential.email.Some?
    ensures v.emailPanel.Some? ==> v.emailPanel.value == EmailPanel(credential.email.value, locked)
  {
    var panel := match credential.email
      case Some(e) => Some(EmailPanel(e, locked))
      case None => None;
    CardView(credential.companyName, locked, panel)
  }

  class Card {
    const credential: Credential
    var locked: bool

    function View(): CardView
      reads this
    {
      Render(credential, locked)
    }

    constructor (credential: Credential)
      ensures this.credential == credential && locked
    {
      this.credential := credential;
      locked := true;
    }

    method ToggleLock()
      modifies this
      ensures locked == !old(locked)
    {
      locked := !locked;
    }

    /** Two presses of the lock restore its state. */
    method ToggleTwice()
      modifies this
      ensures locked == old(locked) && View() == old(View())
    {
      ToggleLock();
      ToggleLock();
    }
  }
}
