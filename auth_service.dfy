/**
 * `authService.register` of src/lib/services/pocketbase.js: create the user,
 * then sign in with the same credentials; on any failure, dig a readable
 * message out of the backend's validation payload.
 */
module AuthService {
  import opened Wrappers
  import opened Strings
  import opened Backend

  datatype RegisterResult = Registered(user: AuthData) | RegisterFailed(error: string)

  const ValidationPrefix: string := "Validation error in fields: "

  predicate HasMessage(entry: FieldEntry)
  {
    entry.message != ""
  }

  /** The text `"<field>: <message>"` for one field error. */
  function FieldError(entry: FieldEntry): string
  {
    entry.name + ": " + entry.message
  }

  /**
   * The `fieldErrors` the source collects: one `"<field>: <message>"` per
   * field that carries a message, in key order.
   */
  function FieldErrors(fields: seq<FieldEntry>): (r: seq<string>)
    ensures |r| == MessageCount(fields) <= |fields|
    ensures r == [] <==> forall i :: 0 <= i < |fields| ==> !HasMessage(fields[i])
    decreases |fields|
  {
    if |fields| == 0 then []
    else
      var init := fields[..|fields| - 1];
      var last := fields[|fields| - 1];
      var r := FieldErrors(init) + (if HasMessage(last) then [FieldError(last)] else []);
      assert forall i :: 0 <= i < |init| ==> init[i] == fields[i];
      r
  }

  /** Every field that carries a message is reported. */
  lemma {:induction false} FieldErrorsReportEach(fields: seq<FieldEntry>)
    ensures forall i :: 0 <= i < |fields| && HasMessage(fields[i]) ==> FieldError(fields[i]) in FieldErrors(fields)
    decreases |fields|
  {
    if |fields| > 0 {
      var init, last := fields[..|fields| - 1], fields[|fields| - 1];
      FieldErrorsReportEach(init);
      var extra := if HasMessage(last) then [FieldError(last)] else [];
      var r := FieldErrors(fields);
      assert r == FieldErrors(init) + extra;
      forall i | 0 <= i < |fields| && HasMessage(fields[i]) ensures FieldError(fields[i]) in r {
        if i < |init| {
          assert fields[i] == init[i];
        }
      }
    }
  }

  /** Every reported error is `"<field>: <message>"` of a field that carries a message. */
  lemma {:induction false} FieldErrorsOnlyMessages(fields: seq<FieldEntry>)
    ensures forall k :: 0 <= k < |FieldErrors(fields)| ==>
      exists i :: 0 <= i < |fields| && HasMessage(fields[i]) && FieldErrors(fields)[k] == FieldError(fields[i])
    decreases |fields|
  {
    if |fields| > 0 {
      var init, last := fields[..|fields| - 1], fields[|fields| - 1];
      FieldErrorsOnlyMessages(init);
      var extra := if HasMessage(last) then [FieldError(last)] else [];
      var r := FieldErrors(fields);
      assert r == FieldErrors(init) + extra;
      forall k | 0 <= k < |r|
        ensures exists i :: 0 <= i < |fields| && HasMessage(fields[i]) && r[k] == FieldError(fields[i])
      {
        if k < |FieldErrors(init)| {
          var i :| 0 <= i < |init| && HasMessage(init[i]) && FieldErrors(init)[k] == FieldError(init[i]);
          assert fields[i] == init[i] && r[k] == FieldErrors(init)[k];
        } else {
          assert extra != [] && r[k] == extra[0];
          assert HasMessage(fields[|fields| - 1]);
        }
      }
    } else {
      assert FieldErrors(fields) == [];
    }
  }

  /** How many fields carry a message. */
  function MessageCount(fields: seq<FieldEntry>): nat
    decreases |fields|
  {
    if |fields| == 0 then 0
    else MessageCount(fields[..|fields| - 1]) + (if HasMessage(fields[|fields| - 1]) then 1 else 0)
  }

  /** `fields.join(', ')` applies to the field names. */
  function FieldNames(fields: seq<FieldEntry>): (names: seq<string>)
    ensures |names| == |fields|
    ensures forall i :: 0 <= i < |fields| ==> names[i] == fields[i].name
  {
    seq(|fields|, i requires 0 <= i < |fields| => fields[i].name)
  }

  /**
   * The message `register` reports for a thrown error: field errors first,
   * then a list of the failing fields, then the payload's message, then the
   * error's own message.
   */
  function DetailedError(e: ClientError): (r: string)
    ensures e.response.None? ==> r == e.message
    ensures r == e.message
            || (e.response.Some? && r == e.response.value.message)
            || (e.response.Some? && e.response.value.fields.Some?
                && (r == Join(FieldErrors(e.response.value.fields.value), ", ")
                    || r == ValidationPrefix + Join(FieldNames(e.response.value.fields.value), ", ")))
  {
    match e.response
    case None => e.message
    case Some(data) =>
      var general := if data.message != "" then data.message else e.message;
      match data.fields
      case None => general
      case Some(fields) =>
        if |fields| == 0 then general
        else
          var errors := FieldErrors(fields);
          if |errors| > 0 then Join(errors, ", ")
          else ValidationPrefix + Join(FieldNames(fields), ", ")
  }

  /**
   * The catch block of `register`, step by step as the source does it:
   * `detailedError` is reassigned, and the `forEach` pushes into `fieldErrors`.
   */
  method ExtractDetailedError(e: ClientError) returns (detailedError: string)
    ensures detailedError == DetailedError(e)
  {
    detailedError := e.message;
    if e.response.Some? {
      var data := e.response.value;
      if data.message != "" {
        detailedError := data.message;
      }
      if data.fields.Some? {
        var fields := data.fields.value;
        if |fields| > 0 {
          var fieldErrors: seq<string> := [];
          var i := 0;
          while i < |fields|
            invariant 0 <= i <= |fields|
            invariant fieldErrors == FieldErrors(fields[..i])
          {
            if HasMessage(fields[i]) {
              fieldErrors := fieldErrors + [FieldError(fields[i])];
            }
            assert fields[..i + 1][..i] == fields[..i];
            i := i + 1;
          }
          assert fields[..i] == fields;
          if |fieldErrors| > 0 {
            detailedError := Join(fieldErrors, ", ");
          } else {
            detailedError := ValidationPrefix + Join(FieldNames(fields), ", ");
          }
        }
      }
    }
  }

  /**
   * `register(email, password, passwordConfirm, name)`: `created` is what
   * `create` resolved to or threw, `authed` the same for `authWithPassword`.
   */
  method Register(email: string, password: string, passwordConfirm: string, name: string,
                  created: Answer<UserRecord>, authed: Answer<AuthData>)
    returns (c: Call<RegisterResult>)
    ensures created.Threw? ==> c.requests == [CreateUser(email, password, passwordConfirm, name)]
    ensures created.Answered? ==>
      c.requests == [CreateUser(email, password, passwordConfirm, name), AuthWithPassword(email, password)]
    ensures c.result.Registered? <==> created.Answered? && authed.Answered?
    ensures c.result.Registered? ==> c.result.user == authed.value
    ensures created.Threw? ==> c.result.error == DetailedError(created.error)
    ensures created.Answered? && authed.Threw? ==> c.result.error == DetailedError(authed.error)
  {
    var create := CreateUser(email, password, passwordConfirm, name);
    match created
    case Threw(error) =>
      var message := ExtractDetailedError(error);
      c := Call([create], RegisterFailed(message));
    case Answered(_) =>
      var signIn := AuthWithPassword(email, password);
      match authed
      case Threw(error) =>
        var message := ExtractDetailedError(error);
        c := Call([create, signIn], RegisterFailed(message));
      case Answered(auth) =>
        c := Call([create, signIn], Registered(auth));
  }

  /** Field errors collect piecewise: those of `a + b` are those of `a`, then those of `b`. */
  lemma {:induction false} FieldErrorsAppend(a: seq<FieldEntry>, b: seq<FieldEntry>)
    ensures FieldErrors(a + b) == FieldErrors(a) + FieldErrors(b)
    decreases |b|
  {
    if |b| == 0 {
      assert a + b == a;
    } else {
      var ab, b', last := a + b, b[..|b| - 1], b[|b| - 1];
      assert ab[..|ab| - 1] == a + b';
      assert ab[|ab| - 1] == last;
      var extra := if HasMessage(last) then [FieldError(last)] else [];
      assert FieldErrors(ab) == FieldErrors(a + b') + extra;
      assert FieldErrors(b) == FieldErrors(b') + extra;
      FieldErrorsAppend(a, b');
    }
  }

  /**
   * Key order: when `i` is the first field that carries a message, the
   * message reported for a payload with these fields starts with that field's error.
   */
  lemma FirstFieldErrorLeads(e: ClientError, i: nat)
    requires e.response.Some? && e.response.value.fields.Some?
    requires i < |e.response.value.fields.value|
    requires HasMessage(e.response.value.fields.value[i])
    requires forall j :: 0 <= j < i ==> !HasMessage(e.response.value.fields.value[j])
    ensures FieldError(e.response.value.fields.value[i]) <= DetailedError(e)
  {
    var fields := e.response.value.fields.value;
    var before, after := fields[..i], fields[i + 1..];
    assert fields == before + [fields[i]] + after;
    FieldErrorsAppend(before + [fields[i]], after);
    FieldErrorsAppend(before, [fields[i]]);
    assert [fields[i]][..0] == [];
    assert FieldErrors(before) == [];
  }

  /**
   * Precedence: once some field carries a message, neither the payload's
   * `message` nor the error's own message affects the result.
   */
  lemma FieldErrorsOverrideMessages(e: ClientError, payloadMessage: string, errorMessage: string)
    requires e.response.Some? && e.response.value.fields.Some?
    requires exists i :: 0 <= i < |e.response.value.fields.value| && HasMessage(e.response.value.fields.value[i])
    ensures
      var e' := ClientError(errorMessage, Some(ErrorData(payloadMessage, e.response.value.fields)));
      DetailedError(e') == DetailedError(e) == Join(FieldErrors(e.response.value.fields.value), ", ")
  {
  }

  /**
   * When fields are listed but none carries a message, the result names every
   * field in key order after the fixed prefix, whatever the messages say.
   */
  lemma FieldNamesWithoutMessages(e: ClientError)
    requires e.response.Some? && e.response.value.fields.Some?
    requires |e.response.value.fields.value| > 0
    requires forall i :: 0 <= i < |e.response.value.fields.value| ==> !HasMessage(e.response.value.fields.value[i])
    ensures DetailedError(e) == ValidationPrefix + Join(FieldNames(e.response.value.fields.value), ", ")
  {
  }

  /**
   * Without field errors to report, the payload's own message wins over the
   * error's message, and the error's message is the last resort.
   */
  lemma MessageFallback(e: ClientError)
    requires e.response.None? || e.response.value.fields.None? || |e.response.value.fields.value| == 0
    ensures e.response.Some? && e.response.value.message != "" ==> DetailedError(e) == e.response.value.message
    ensures e.response.None? || e.response.value.message == "" ==> DetailedError(e) == e.message
  {
  }
}
