/** The registration form
    (src/components/login-registration/RegistrationPageComponent.tsx): the
    form entries become a record whose `bornDate`, typed as "Y-M-D", is
    rewritten as "D/M/Y" before it is posted. */
module Registration {
  import opened Wrappers
  import opened Js

  const BornDateKey := "bornDate"

  /** `const [year, month, day] = s.split("-")`: a missing part is `undefined`,
      which the template literal prints as "undefined". */
  function Part(parts: seq<string>, i: nat): string {
    if i < |parts| then parts[i] else "undefined"
  }

  /** `${day}/${month}/${year}`. */
  function FormatBornDate(s: string): string {
    var parts := Split(s, '-');
    Part(parts, 2) + "/" + Part(parts, 1) + "/" + Part(parts, 0)
  }

  /** The in-place rewrite of the payload: only a present, non-empty
      `bornDate` is touched. */
  function TransformPayload(payload: map<string, string>): (r: map<string, string>)
    ensures r.Keys == payload.Keys
    ensures forall k :: k in payload && k != BornDateKey ==> r[k] == payload[k]
    ensures BornDateKey !in payload || payload[BornDateKey] == "" ==> r == payload
    ensures BornDateKey in payload && payload[BornDateKey] != "" ==> r[BornDateKey] == FormatBornDate(payload[BornDateKey])
  {
    if BornDateKey in payload && payload[BornDateKey] != "" then
      payload[BornDateKey := FormatBornDate(payload[BornDateKey])]
    else payload
  }

  predicate DateField(s: string) {
    '-' !in s && '/' !in s
  }

  lemma JoinThree(a: string, b: string, c: string, sep: string)
    ensures Join([a, b, c], sep) == a + sep + b + sep + c
  {
    assert [a, b, c][1..] == [b, c] && [b, c][1..] == [c];
    assert Join([c], sep) == c;
    assert Join([b, c], sep) == b + sep + c;
    assert a + sep + b + sep + c == a + sep + (b + sep + c);
  }

  /** "Y-M-D" becomes "D/M/Y", the three parts unchanged. */
  lemma {:induction false} FormatDate(y: string, m: string, d: string)
    requires '-' !in y && '-' !in m && '-' !in d
    ensures FormatBornDate(y + "-" + m + "-" + d) == d + "/" + m + "/" + y
  {
    JoinThree(y, m, d, "-");
    SplitJoin([y, m, d], '-');
  }

  /** Anything after a third dash is dropped: only the first three parts are used. */
  lemma {:induction false} FormatDateIgnoresRest(y: string, m: string, d: string, rest: string)
    requires '-' !in y && '-' !in m && '-' !in d
    ensures FormatBornDate(y + "-" + m + "-" + d + "-" + rest) == d + "/" + m + "/" + y
  {
    var s := y + "-" + m + "-" + d + "-" + rest;
    assert s == y + ['-'] + (m + ['-'] + (d + ['-'] + rest));
    SplitAt(y, '-', m + ['-'] + (d + ['-'] + rest));
    SplitAt(m, '-', d + ['-'] + rest);
    SplitAt(d, '-', rest);
  }

  /** A date with no dash at all keeps it as the year and prints the other
      two parts as "undefined". */
  lemma {:induction false} FormatDateWithoutDash(s: string)
    requires '-' !in s
    ensures FormatBornDate(s) == "undefined" + "/" + "undefined" + "/" + s
  {
    SplitWithout(s, '-');
  }

  /** Round trip: splitting the rewritten date on "/" and reading it
      backwards gives back year, month and day. */
  lemma DateRoundTrip(y: string, m: string, d: string)
    requires DateField(y) && DateField(m) && DateField(d)
    ensures var parts := Split(FormatBornDate(y + "-" + m + "-" + d), '/');
            |parts| == 3 && [parts[2], parts[1], parts[0]] == [y, m, d]
  {
    FormatDate(y, m, d);
    JoinThree(d, m, y, "/");
    SplitJoin([d, m, y], '/');
  }

  /** What the backend answered: created; refused, with the `message` of
      the error body if it has one; or no answer (network error, or an error
      body that is not JSON). */
  datatype RegisterAnswer = Registered | Refused(message: Option<string>) | NoAnswer

  function RefusalMessage(message: Option<string>): (r: string)
    ensures r != ""
    ensures message.Some? && message.value != "" ==> r == message.value
    ensures !TruthyText(message) ==> r == "Registrazione fallita"
  {
    if TruthyText(message) then message.value else "Registrazione fallita"
  }

  class RegistrationPage {
    var error: Option<string>
    var location: Option<string>
    var sent: seq<map<string, string>>

    constructor ()
      ensures error == None && location == None && sent == []
    {
      error, location, sent := None, None, [];
    }

    /** `register(ev)`: the transformed form is posted; only a success
        navigates to the login page. */
    method Register(form: map<string, string>, answer: RegisterAnswer)
      modifies this
      ensures sent == old(sent) + [TransformPayload(form)]
      ensures answer.Registered? ==> location == Some("/auth/login") && error == None
      ensures answer.Refused? ==> location == old(location) && error == Some(RefusalMessage(answer.message))
      ensures answer.NoAnswer? ==> location == old(location) && error == Some("Errore di rete durante la registrazione")
    {
      error := None;
      var payload := TransformPayload(form);
      sent := sent + [payload];
      match answer {
        case Registered => location := Some("/auth/login");
        case Refused(message) => error := Some(RefusalMessage(message));
        case NoAnswer => error := Some("Errore di rete durante la registrazione");
      }
    }
  }

  /** A client: the date reaches the backend reordered, the other fields as typed. */
  method RegisterOnce(name: string, y: string, m: string, d: string)
    requires '-' !in y && '-' !in m && '-' !in d
  {
    var page := new RegistrationPage();
    var form := map["name" := name, BornDateKey := y + "-" + m + "-" + d];
    page.Register(form, Registered);
    FormatDate(y, m, d);
    assert page.sent[0][BornDateKey] == d + "/" + m + "/" + y;
    assert page.sent[0]["name"] == name;
    assert page.location == Some("/auth/login");
  }
}
