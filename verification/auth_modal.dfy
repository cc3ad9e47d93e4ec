/**
  The sign-in / sign-up dialog: an email field, a password field, a mode
  flag, and a submit handler that checks the two values for emptiness only
  and records the session in localStorage. The email value is the one the
  browser delivers for an email input, after its own sanitising. The `isOpen` prop and the `onClose` callback belong to the
  parent: the prop is a field the parent sets, and a call of onClose is
  reported to the caller as `closeRequested`.
 */
module AuthModal {
  import opened Js

  const AuthKey: string := "VirtualFactoryAuth"
  const UserKey: string := "VirtualFactoryUser"
  const MissingFields: string := "Please fill all fields"

  /** The toast a submit shows: an error, or a success with its description. */
  datatype Toast = Error(title: string) | Success(title: string, description: string)

  /** The success toast for the current mode. */
  function Welcome(isSignUp: bool): (t: Toast)
    ensures t.Success?
    ensures t.title == "Account created!" <==> isSignUp
    ensures t.title == "Welcome back!" <==> !isSignUp
  {
    if isSignUp then Success("Account created!", "You can now explore Virtual Factory")
    else Success("Welcome back!", "Authentication successful")
  }

  /** The two localStorage writes of a successful submit; every other key is kept. */
  function RecordSession(store: Store, email: string): (r: Store)
    ensures AuthKey in r && r[AuthKey] == "true"
    ensures UserKey in r && r[UserKey] == email
    ensures forall k :: k != AuthKey && k != UserKey ==>
      (k in r <==> k in store) && (k in r ==> r[k] == store[k])
  {
    store[AuthKey := "true"][UserKey := email]
  }

  /** The dialog's texts for the current mode. */
  datatype Form = Form(heading: string, submitLabel: string, prompt: string, switchLabel: string,
                       email: string, password: string)

  function FormFor(isSignUp: bool, email: string, password: string): (f: Form)
    ensures f.email == email && f.password == password
    ensures isSignUp ==> f.heading == "Create an Account" && f.submitLabel == "Sign Up" && f.switchLabel == "Sign In"
    ensures !isSignUp ==> f.heading == "Welcome Back" && f.submitLabel == "Sign In" && f.switchLabel == "Sign Up"
  {
    if isSignUp then Form("Create an Account", "Sign Up", "Already have an account?", "Sign In", email, password)
    else Form("Welcome Back", "Sign In", "Don’t have an account?", "Sign Up", email, password)
  }

  /** The submit button and the switch link name opposite actions, so the
      link always offers the mode the form is not in. */
  lemma SwitchOffersOtherMode(isSignUp: bool, email: string, password: string)
    ensures FormFor(isSignUp, email, password).switchLabel == FormFor(!isSignUp, email, password).submitLabel
    ensures FormFor(isSignUp, email, password).submitLabel != FormFor(!isSignUp, email, password).submitLabel
  {
  }

  class Dialog {
    var isOpen: bool
    var isSignUp: bool
    var email: string
    var password: string
    var store: Store

    constructor (isOpen: bool, store: Store)
      ensures this.isOpen == isOpen && this.store == store
      ensures !isSignUp && email == "" && password == ""
    {
      this.isOpen := isOpen;
      this.store := store;
      isSignUp := false;
      email := "";
      password := "";
    }

    /** The parent changes the isOpen prop; the fields keep their values. */
    method SetOpen(open: bool)
      modifies this
      ensures isOpen == open
      ensures isSignUp == old(isSignUp) && email == old(email) && password == old(password) && store == old(store)
    {
      isOpen := open;
    }

    method SetEmail(text: string)
      modifies this
      ensures email == text
      ensures isOpen == old(isOpen) && isSignUp == old(isSignUp) && password == old(password) && store == old(store)
    {
      email := text;
    }

    method SetPassword(text: string)
      modifies this
      ensures password == text
      ensures isOpen == old(isOpen) && isSignUp == old(isSignUp) && email == old(email) && store == old(store)
    {
      password := text;
    }

    /** The mode link: sign-in and sign-up swap; the fields are kept. */
    method SwitchMode()
      modifies this
      ensures isSignUp == !old(isSignUp)
      ensures isOpen == old(isOpen) && email == old(email) && password == old(password) && store == old(store)
    {
      isSignUp := !isSignUp;
    }

    /** handleSubmit. An empty email or password shows an error and changes
        nothing. Otherwise (whitespace counts as filled) the session is
        recorded, the mode's success toast is shown, onClose is called and
        both fields are cleared. */
    method Submit() returns (toast: Toast, closeRequested: bool)
      requires isOpen
      modifies this
      ensures toast.Error? <==> old(email) == "" || old(password) == ""
      ensures toast.Error? ==>
        toast.title == MissingFields && !closeRequested &&
        email == old(email) && password == old(password) && store == old(store)
      ensures toast.Success? ==>
        toast == Welcome(isSignUp) && closeRequested &&
        store == RecordSession(old(store), old(email)) && email == "" && password == ""
      ensures isOpen == old(isOpen) && isSignUp == old(isSignUp)
    {
      if email == "" || password == "" {
        return Error(MissingFields), false;
      }
      store := RecordSession(store, email);
      toast := Welcome(isSignUp);
      closeRequested := true;
      email := "";
      password := "";
    }

    /** A closed dialog renders nothing. */
    function Render(): (r: Option<Form>)
      reads this
      ensures r.None? <==> !isOpen
      ensures r.Some? ==> r.value == FormFor(isSignUp, email, password)
    {
      if isOpen then Some(FormFor(isSignUp, email, password)) else None
    }
  }

  /** Following the mode link twice brings back the mode and keeps the fields. */
  method SwitchTwice(d: Dialog)
    modifies d
    ensures d.isSignUp == old(d.isSignUp)
    ensures d.email == old(d.email) && d.password == old(d.password) && d.store == old(d.store)
  {
    d.SwitchMode();
    d.SwitchMode();
  }

  /** The handler does not trim: a password of spaces only passes its
      emptiness test, and the user is signed in. */
  method WhitespaceIsAccepted() returns (toast: Toast, user: string)
    ensures toast == Welcome(false) && user == "ada@example.com"
  {
    var d := new Dialog(true, map[]);
    d.SetEmail("ada@example.com");
    d.SetPassword(" ");
    var closeRequested;
    toast, closeRequested := d.Submit();
    user := d.store[UserKey];
  }
}
