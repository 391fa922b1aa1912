/**
 * The three-step rider sign-up wizard (src/components/rider/RiderRegistration.tsx):
 * account, then identity (two simulated camera captures, name and phone),
 * then permissions and the register request.
 */
module RiderRegistration {
  import opened Types

  /** The two simulated captures of step 2. */
  datatype PhotoKind = IdCard | Face

  /** The wizard's `formData`; age and gender have fixed defaults and no control. */
  datatype RiderForm = RiderForm(
    username: string,
    password: string,
    name: string,
    phone: string,
    age: nat,
    gender: string)

  const DefaultAge: nat := 25
  const DefaultGender: string := "男"

  /** The body `{...formData, role: 'rider'}`; the register schema reads only these five fields. */
  function RegisterRequest(f: RiderForm): (b: RegisterBody)
    ensures b.role == "rider" && ParseRole(b.role) == Some(Rider)
    ensures b.username == f.username && b.password == f.password
    ensures b.name == f.name && b.phone == f.phone
  {
    RegisterBody(f.username, f.password, "rider", f.name, f.phone)
  }

  class Wizard {
    var step: nat
    var idCard: bool
    var face: bool
    var form: RiderForm
    /** Set once `onBack` has been called: the wizard is left. */
    var exited: bool

    /**
     * The steps run from 1 to 3, and each "next" button is disabled until its
     * fields are filled; the inputs of a step are not shown after it, so what
     * was checked stays true.
     */
    ghost predicate Valid()
      reads this
    {
      && 1 <= step <= 3
      && (step >= 2 ==> form.username != "" && form.password != "")
      && (step == 3 ==> form.name != "" && form.phone != "")
    }

    constructor ()
      ensures Valid()
      ensures step == 1 && !idCard && !face && !exited
      ensures form == RiderForm("", "", "", "", DefaultAge, DefaultGender)
    {
      step := 1;
      idCard := false;
      face := false;
      form := RiderForm("", "", "", "", DefaultAge, DefaultGender);
      exited := false;
    }

    /** The username input, shown on step 1 only. */
    method SetUsername(v: string)
      requires Valid() && step == 1
      modifies this`form
      ensures Valid() && form == old(form).(username := v)
    {
      form := form.(username := v);
    }

    /** The password input, shown on step 1 only. */
    method SetPassword(v: string)
      requires Valid() && step == 1
      modifies this`form
      ensures Valid() && form == old(form).(password := v)
    {
      form := form.(password := v);
    }

    /** The real-name input, shown on step 2 only. */
    method SetName(v: string)
      requires Valid() && step == 2
      modifies this`form
      ensures Valid() && form == old(form).(name := v)
    {
      form := form.(name := v);
    }

    /** The phone input, shown on step 2 only. */
    method SetPhone(v: string)
      requires Valid() && step == 2
      modifies this`form
      ensures Valid() && form == old(form).(phone := v)
    {
      form := form.(phone := v);
    }

    /** Step 1's "next": moves to step 2 only when username and password are both filled in. */
    method NextFromAccount()
      requires Valid() && step == 1
      modifies this`step
      ensures Valid()
      ensures step == 2 <==> form.username != "" && form.password != ""
      ensures step != 2 ==> step == 1
    {
      if form.username != "" && form.password != "" {
        step := 2;
      }
    }

    /** Step 2's "next": moves to step 3 only when name and phone are both filled in. */
    method NextFromIdentity()
      requires Valid() && step == 2
      modifies this`step
      ensures Valid()
      ensures step == 3 <==> form.name != "" && form.phone != ""
      ensures step != 3 ==> step == 2
    {
      if form.name != "" && form.phone != "" {
        step := 3;
      }
    }

    /**
     * A capture's timer fires (one second after its button on step 2): its
     * flag becomes true and the other flag is untouched, whatever step the
     * wizard is on by then.
     */
    method PhotoConfirmed(kind: PhotoKind)
      requires Valid()
      modifies this`idCard, this`face
      ensures Valid()
      ensures kind == IdCard ==> idCard && face == old(face)
      ensures kind == Face ==> face && idCard == old(idCard)
    {
      if kind == IdCard {
        idCard := true;
      } else {
        face := true;
      }
    }

    /**
     * The register button of step 3: no request unless both captures are
     * confirmed, and then the filled-in form with the rider role.
     */
    method Register() returns (request: Option<RegisterBody>)
      requires Valid() && step == 3
      ensures request.Some? <==> idCard && face
      ensures request.Some? ==>
        && request.value.role == "rider"
        && request.value.username == form.username && request.value.username != ""
        && request.value.password == form.password && request.value.password != ""
        && request.value.name == form.name && request.value.name != ""
        && request.value.phone == form.phone && request.value.phone != ""
    {
      if !idCard || !face {
        return None;
      }
      request := Some(RegisterRequest(form));
    }

    /** The reply to the register request: only an ok reply leaves the wizard. */
    method OnRegisterResponse(ok: bool)
      modifies this`exited
      ensures exited == (old(exited) || ok)
    {
      if ok {
        exited := true;
      }
    }

    /** The back arrow, available on every step. */
    method Back()
      modifies this`exited
      ensures exited
    {
      exited := true;
    }
  }
}
