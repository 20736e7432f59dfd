/**
 * The decisions `main` (app.py) takes on the form: the phone-number check,
 * which only shows an error, and the required-field gate, which decides on
 * a button press whether questions are generated or the "fill all fields"
 * error is shown. Rendering is left out; what remains is which of these
 * outcomes the page shows.
 */
module Form {
  import opened Wrappers
  import opened Decimal
  import opened Prompt
  import opened Stream

  /**
   * The values of the form's widgets. `years` is `None` only if the number
   * widget gave no value; with its minimum of 0 it always gives one.
   */
  datatype Profile = Profile(
    fullName: string,
    email: string,
    phone: string,
    years: Option<nat>,
    desiredPositions: string,
    location: string,
    techStack: string)

  /** `s.isdigit()`, with digits taken to be the ASCII digits: false on the empty string. */
  function IsDigitString(s: string): (r: bool)
    ensures r <==> |s| > 0 && forall i :: 0 <= i < |s| ==> IsAsciiDigit(s[i])
  {
    if |s| == 0 then false
    else if |s| == 1 then IsAsciiDigit(s[0])
    else IsAsciiDigit(s[0]) && IsDigitString(s[1..])
  }

  /** The condition under which the page shows "Phone number must be 10 digits". */
  function PhoneError(phone: string): (r: bool)
    ensures r <==> phone != "" && (|phone| != 10 || exists i :: 0 <= i < |phone| && !IsAsciiDigit(phone[i]))
  {
    phone != "" && (|phone| != 10 || !IsDigitString(phone))
  }

  /** The accepted phone numbers are the empty one and exactly the ten-digit ones. */
  lemma PhoneAccepted(phone: string)
    ensures !PhoneError(phone) <==> phone == "" || (|phone| == 10 && forall i :: 0 <= i < |phone| ==> IsAsciiDigit(phone[i]))
  {
  }

  /** Nine digits are refused. */
  lemma NineDigitPhoneRefused()
    ensures PhoneError("123456789")
  {
    assert |"123456789"| == 9;
  }

  /** Ten characters with letters among them are refused. */
  lemma LetteredPhoneRefused()
    ensures PhoneError("12345abcde")
  {
    assert !IsAsciiDigit("12345abcde"[5]);
  }

  /** Ten digits pass. */
  lemma TenDigitPhoneAccepted()
    ensures !PhoneError("1234567890")
  {
    var s := "1234567890";
    assert forall i :: 0 <= i < |s| ==> IsAsciiDigit(s[i]);
  }

  /** The condition on line 96 of app.py under which questions are generated. */
  predicate RequiredFieldsPresent(p: Profile) {
    p.fullName != "" && p.years.Some? && p.desiredPositions != "" && p.techStack != ""
  }

  /** What the page shows below the form. */
  datatype Outcome =
    | Idle                                      // the button was not pressed
    | MissingFields                             // "Please fill all fields before generating the questions."
    | Questions(prompt: string, text: string)   // the prompt sent and the accumulated answer shown

  datatype View = View(phoneError: bool, outcome: Outcome)

  /**
   * One run of `main` on the given widget values: whether the button was
   * pressed, and the contents the completion service streams back for the
   * prompt it is sent.
   */
  function Page(p: Profile, pressed: bool, stream: seq<Content>): View
  {
    View(
      PhoneError(p.phone),
      if !pressed then Idle
      else if RequiredFieldsPresent(p) then
        Questions(GeneratePrompt(p.fullName, p.years.value, p.desiredPositions, p.techStack), Accumulated(stream))
      else MissingFields)
  }

  /**
   * `main` as it runs, step by step: the same decisions as `Page`, but the
   * answer is gathered by the accumulation loop `AccumulateChunks`. It exists
   * to tie that loop into `main`; its contract says it agrees with `Page`.
   */
  method Submit(p: Profile, pressed: bool, stream: seq<Content>) returns (view: View)
    ensures view == Page(p, pressed, stream)
  {
    var outcome := Idle;
    if pressed {
      if RequiredFieldsPresent(p) {
        var prompt := GeneratePrompt(p.fullName, p.years.value, p.desiredPositions, p.techStack);
        var text := AccumulateChunks(stream);
        outcome := Questions(prompt, text);
      } else {
        outcome := MissingFields;
      }
    }
    view := View(PhoneError(p.phone), outcome);
  }

  /**
   * Questions are generated exactly when the button is pressed and the name,
   * the years, the desired positions and the tech stack are all present; the
   * prompt is built from those fields and the answer is the accumulated stream.
   */
  lemma GenerationGate(p: Profile, pressed: bool, stream: seq<Content>)
    ensures var o := Page(p, pressed, stream).outcome;
            (o.Questions? <==> pressed && p.fullName != "" && p.years.Some?
                               && p.desiredPositions != "" && p.techStack != "")
            && (o.MissingFields? <==> pressed && (p.fullName == "" || p.years.None?
                                                  || p.desiredPositions == "" || p.techStack == ""))
            && (o.Idle? <==> !pressed)
            && (o.Questions? ==> o.prompt == GeneratePrompt(p.fullName, p.years.value, p.desiredPositions, p.techStack)
                                 && o.text == AllText(stream))
  {
    AccumulatedIsAllText(stream);
  }

  /** The phone check does not take part in the gate: the phone only decides the phone error. */
  lemma PhoneDoesNotGate(p: Profile, phone: string, pressed: bool, stream: seq<Content>)
    ensures Page(p.(phone := phone), pressed, stream).outcome == Page(p, pressed, stream).outcome
    ensures Page(p.(phone := phone), pressed, stream).phoneError == PhoneError(phone)
  {
  }

  /** Email and location are collected but never used. */
  lemma UnusedFields(p: Profile, email: string, location: string, pressed: bool, stream: seq<Content>)
    ensures Page(p.(email := email, location := location), pressed, stream) == Page(p, pressed, stream)
  {
  }

  /**
   * The worked example: a complete profile with a nine-digit phone shows the
   * phone error and still generates; its prompt says "Experience: 3 year(s)"
   * and the two streamed fragments are shown joined.
   */
  lemma JaneDoeEndToEnd()
    ensures var p := Profile("Jane Doe", "", "123456789", Some(3), "ML Engineer", "", "Python, PyTorch");
            var v := Page(p, true, [Some("1. What is..."), Some("\n\n2. Explain...")]);
            v.phoneError && v.outcome.Questions?
            && Contains(v.outcome.prompt, "Experience: 3 year(s)")
            && v.outcome.text == "1. What is..." + "\n\n2. Explain..."
  {
    NineDigitPhoneRefused();
    JaneDoePrompt();
    var s := [Some("1. What is..."), Some("\n\n2. Explain...")];
    AccumulatedIsAllText(s);
    assert AllText(s[1..]) == "\n\n2. Explain...";
  }
}
