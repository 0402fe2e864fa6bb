/** The email service: construction (validation, the allow-listed transport
    options, a private copy of the submission data, per-role intro and outro
    text, the optional submission date) and the render-then-send dispatch to
    the caseworker and the customer. The template engine and the mail
    transport are parameters: each answers a request with the `(err, value)`
    pair its callback would receive. */
module Service {
  import opened JsValues
  import opened Promises

  /** The transport options the service forwards, in the order they are listed. */
  const EMAILER_KEYS: seq<string> := ["host", "port", "ignoreTLS", "auth", "secure", "from", "replyTo"]

  const NO_OPTIONS: string := "No options provided"
  const NO_DATA: string := "No data provided"
  const DATE_LABEL: string := "Submission Date"

  /** What construction can throw: an `Error` with a message, or the
      `TypeError` the runtime raises when the date cannot be prepended. */
  datatype Exception = Error(message: string) | TypeError

  datatype Construction = Built(service: EmailService) | Threw(error: Exception)

  /** The two template variants, named `formatted` and `raw` in the template directory. */
  datatype Template = Formatted | Raw

  /** What a template is rendered with; the partials are part of the renderer. */
  datatype RenderContext = RenderContext(data: Value, intro: Value, outro: Value)

  type Renderer = (Template, RenderContext) -> Reply

  /** One call of the transport's `sendEmail(to, subject, bodies, callback)`. */
  datatype SendRequest = SendRequest(to: Value, subject: Value, bodies: Value)

  type Transport = SendRequest -> Reply

  /** The line logged when a send settles. */
  datatype LogEvent = SendFailed(to: Value, error: Value) | Sent(to: Value, info: Value)

  /** What a dispatch did: the transport sends it issued, what it logged, and
      how its promise settled. */
  datatype Dispatch = Dispatch(sends: seq<SendRequest>, log: seq<LogEvent>, outcome: Settled)

  /** `_.pick(source, keys)`: the entries of `source` under the listed keys,
      values unchanged; every other key is dropped. */
  function Pick(source: Value, keys: seq<string>): (picked: map<string, Value>)
    ensures forall k :: k in picked <==> k in keys && k in Props(source)
    ensures forall k :: k in picked ==> picked[k] == Props(source)[k]
  {
    if keys == [] then map[]
    else
      var rest := Pick(source, keys[1..]);
      if keys[0] in Props(source) then rest[keys[0] := Props(source)[keys[0]]] else rest
  }

  /** The intro or outro text per recipient role. */
  function RoleTable(customer: Value, caseworker: Value): (table: map<string, Value>)
    ensures table.Keys == {"customer", "caseworker"}
  {
    map["customer" := customer, "caseworker" := caseworker]
  }

  /** A role reads its own text from the table, and any other role reads `undefined`. */
  lemma RoleLookup(customer: Value, caseworker: Value, role: string)
    ensures Lookup(RoleTable(customer, caseworker), role)
         == if role == "customer" then customer
            else if role == "caseworker" then caseworker
            else Undefined
  {
  }

  /** The field prepended to the first group: `{label: 'Submission Date', value: stamp}`. */
  function DateField(stamp: string): (field: Value)
    ensures field.Obj? && field.props.Keys == {"label", "value"}
    ensures field.props["label"] == Str("Submission Date") && field.props["value"] == Str(stamp)
  {
    Obj(map["label" := Str(DATE_LABEL), "value" := Str(stamp)])
  }

  /** Whether `_.first(data).fields.unshift(...)` can run: `data` is a
      non-empty array whose first element holds an array under `fields`.
      On any other shape the model reports the `TypeError`. */
  predicate HasFirstFields(data: Value) {
    && data.Arr? && |data.items| > 0
    && data.items[0].Obj? && "fields" in data.items[0].props
    && data.items[0].props["fields"].Arr?
  }

  function FirstFields(data: Value): seq<Value>
    requires HasFirstFields(data)
  {
    data.items[0].props["fields"].items
  }

  /** The submission data with the date field prepended to the first group's
      fields, or `None` where the source throws. Nothing else changes: the
      other groups, and the first group's other properties, stay as they were. */
  function WithDateField(data: Value, stamp: string): (r: Option<Value>)
    ensures r.Some? <==> HasFirstFields(data)
    ensures r.Some? ==>
      && HasFirstFields(r.value)
      && FirstFields(r.value) == [DateField(stamp)] + FirstFields(data)
      && |r.value.items| == |data.items|
      && r.value.items[1..] == data.items[1..]
      && r.value.items[0].props - {"fields"} == data.items[0].props - {"fields"}
  {
    if HasFirstFields(data) then
      var first := data.items[0].props;
      var fields := Arr([DateField(stamp)] + FirstFields(data));
      Some(Arr(data.items[0 := Obj(first["fields" := fields])]))
    else
      None
  }

  /** The first group's fields grow by exactly one, the date field first and
      the old fields after it in their old order. */
  lemma DateFieldGrowsFirstGroup(data: Value, stamp: string)
    requires HasFirstFields(data)
    ensures var fields := FirstFields(WithDateField(data, stamp).value);
      && |fields| == |FirstFields(data)| + 1
      && fields[0] == DateField(stamp)
      && fields[0].props["label"] == Str("Submission Date")
      && fields[1..] == FirstFields(data)
  {
  }

  /** The dated data always differs from the data it was made from, so the
      date lands in the service's copy and never in the caller's object. */
  lemma DateOnlyInCopy(data: Value, stamp: string)
    requires HasFirstFields(data)
    ensures WithDateField(data, stamp).value != data
  {
  }

  /** One page whose only field is a name: after the date is prepended, the
      page lists the date first and the name second. */
  lemma DateExample(stamp: string)
    ensures WithDateField(Arr([Obj(map["fields" := Arr([Obj(map["label" := Str("Name"), "value" := Str("Jo")])])])]), stamp)
         == Some(Arr([Obj(map["fields" := Arr([DateField(stamp), Obj(map["label" := Str("Name"), "value" := Str("Jo")])])])]))
  {
    var name := Obj(map["label" := Str("Name"), "value" := Str("Jo")]);
    var data := Arr([Obj(map["fields" := Arr([name])])]);
    var dated := Obj(map["fields" := Arr([DateField(stamp), name])]);
    assert FirstFields(data) == [name];
    assert [DateField(stamp)] + [name] == [DateField(stamp), name];
    assert data.items[0].props["fields" := Arr([DateField(stamp), name])] == dated.props;
    assert data.items[0 := dated] == [dated];
  }

  class EmailService {
    const emailerOptions: map<string, Value>
    var data: Value
    const customerEmail: Value
    const caseworkerEmail: Value
    const subject: Value
    const intro: map<string, Value>
    const outro: map<string, Value>

    /** The field assignments of construction, once `options` and its data
        have passed the checks in `Create`. `_.cloneDeep` needs no counterpart:
        a Dafny value is never shared, so the stored data is already a copy. */
    constructor (options: Value)
      ensures emailerOptions == Pick(options, EMAILER_KEYS)
      ensures data == Get(options, "data")
      ensures customerEmail == Get(options, "customerEmail")
      ensures caseworkerEmail == Get(options, "caseworker")
      ensures subject == Get(options, "subject")
      ensures intro == RoleTable(Get(options, "customerIntro"), Get(options, "caseworkerIntro"))
      ensures outro == RoleTable(Get(options, "customerOutro"), Get(options, "caseworkerOutro"))
    {
      emailerOptions := Pick(options, EMAILER_KEYS);
      data := Get(options, "data");
      customerEmail := Get(options, "customerEmail");
      caseworkerEmail := Get(options, "caseworker");
      subject := Get(options, "subject");
      intro := RoleTable(Get(options, "customerIntro"), Get(options, "caseworkerIntro"));
      outro := RoleTable(Get(options, "customerOutro"), Get(options, "caseworkerOutro"));
    }

    /** `new EmailService(options)`: missing options are reported before
        missing data, and a service is produced only when both are present
        and, unless `includeDate` is `false`, the date could be prepended.
        `stamp` is the UTC time string the clock would give. */
    static method Create(options: Value, stamp: string) returns (r: Construction)
      ensures !Truthy(options) ==> r == Threw(Error(NO_OPTIONS))
      ensures Truthy(options) && !Truthy(Get(options, "data")) ==> r == Threw(Error(NO_DATA))
      ensures Truthy(options) && Truthy(Get(options, "data")) ==>
                (r.Built? <==> Get(options, "includeDate") == Bool(false) || HasFirstFields(Get(options, "data")))
      ensures Truthy(options) && Truthy(Get(options, "data")) && r.Threw? ==> r.error == TypeError
      ensures r.Built? ==>
                && fresh(r.service)
                && r.service.emailerOptions == Pick(options, EMAILER_KEYS)
                && r.service.customerEmail == Get(options, "customerEmail")
                && r.service.caseworkerEmail == Get(options, "caseworker")
                && r.service.subject == Get(options, "subject")
                && r.service.intro == RoleTable(Get(options, "customerIntro"), Get(options, "caseworkerIntro"))
                && r.service.outro == RoleTable(Get(options, "customerOutro"), Get(options, "caseworkerOutro"))
      ensures r.Built? && Get(options, "includeDate") == Bool(false) ==> r.service.data == Get(options, "data")
      ensures r.Built? && Get(options, "includeDate") != Bool(false) ==>
                WithDateField(Get(options, "data"), stamp) == Some(r.service.data)
    {
      if !Truthy(options) {
        return Threw(Error(NO_OPTIONS));
      }
      if !Truthy(Get(options, "data")) {
        return Threw(Error(NO_DATA));
      }
      var service := new EmailService(options);
      if Get(options, "includeDate") != Bool(false) {
        var ok := service.IncludeDate(stamp);
        if !ok {
          return Threw(TypeError);
        }
      }
      return Built(service);
    }

    /** `_includeDate`: prepends the date field to the first group's fields,
        or reports that the runtime would throw and leaves the data alone. */
    method IncludeDate(stamp: string) returns (ok: bool)
      modifies this
      ensures ok <==> HasFirstFields(old(data))
      ensures ok ==> WithDateField(old(data), stamp) == Some(data)
      ensures !ok ==> data == old(data)
    {
      ok := HasFirstFields(data);
      if ok {
        var groups := data.items;
        var first := groups[0].props;
        var fields := first["fields"].items;
        fields := [DateField(stamp)] + fields;
        data := Arr(groups[0 := Obj(first["fields" := Arr(fields)])]);
      }
    }

    /** The context `_renderTemplate` renders with for `role`: the given
        data and the role's intro and outro, or `undefined` for a role the
        tables do not hold. */
    function Context(role: string, data: Value): (c: RenderContext)
      ensures c.data == data
      ensures role in intro ==> c.intro == intro[role]
      ensures role in outro ==> c.outro == outro[role]
      ensures role !in intro ==> c.intro == Undefined
      ensures role !in outro ==> c.outro == Undefined
    {
      RenderContext(data, Lookup(intro, role), Lookup(outro, role))
    }

    /** For a service built from `options`, the context of the customer and
        of the caseworker carries that role's intro and outro option, and any
        other role gets `undefined` for both. */
    lemma ContextForRole(options: Value, role: string, data: Value)
      requires intro == RoleTable(Get(options, "customerIntro"), Get(options, "caseworkerIntro"))
      requires outro == RoleTable(Get(options, "customerOutro"), Get(options, "caseworkerOutro"))
      ensures Context(role, data).intro
           == if role == "customer" then Get(options, "customerIntro")
              else if role == "caseworker" then Get(options, "caseworkerIntro")
              else Undefined
      ensures Context(role, data).outro
           == if role == "customer" then Get(options, "customerOutro")
              else if role == "caseworker" then Get(options, "caseworkerOutro")
              else Undefined
    {
      RoleLookup(Get(options, "customerIntro"), Get(options, "caseworkerIntro"), role);
      RoleLookup(Get(options, "customerOutro"), Get(options, "caseworkerOutro"), role);
    }

    /** `sendEmail(to, role, data)`: both variants are rendered; only when
        both succeed is the transport called, once, with `[formatted, raw]`
        and the stored subject. A render failure rejects with that failure and
        sends nothing; a transport failure rejects with the transport's
        error. Every send logs one line. */
    function SendEmail(render: Renderer, transport: Transport, to: Value, role: string, data: Value): (d: Dispatch)
      ensures |d.sends| <= 1
      ensures var formatted := render(Formatted, Context(role, data));
              var raw := render(Raw, Context(role, data));
        && (d.sends != [] <==> !Truthy(formatted.err) && !Truthy(raw.err))
        && (d.sends != [] ==> d.sends[0] == SendRequest(to, subject, Arr([formatted.value, raw.value])))
        && (d.sends == [] ==>
              && d.log == []
              && ((Truthy(formatted.err) && d.outcome == Rejected(formatted.err))
                  || (Truthy(raw.err) && d.outcome == Rejected(raw.err))))
      ensures d.sends != [] ==>
        var reply := transport(d.sends[0]);
        && (Truthy(reply.err) ==> d.outcome == Rejected(reply.err) && d.log == [SendFailed(to, reply.err)])
        && (!Truthy(reply.err) ==> d.outcome == Resolved(reply.value) && d.log == [Sent(to, reply.value)])
    {
      var context := Context(role, data);
      var bodies := All2(Settle(render(Formatted, context)), Settle(render(Raw, context)));
      if bodies.Rejected? then
        Dispatch([], [], bodies)
      else
        var request := SendRequest(to, subject, bodies.value);
        var sent := Settle(transport(request));
        var line := if sent.Rejected? then SendFailed(to, sent.reason) else Sent(to, sent.value);
        Dispatch([request], [line], sent)
    }

    /** `sendEmails()`: dispatches to the caseworker and to the customer, with
        the stored data, and succeeds with both results only when both
        succeed. Both dispatches run whatever the other's outcome. */
    function SendEmails(render: Renderer, transport: Transport): (d: Dispatch)
      reads this
      ensures var caseworker := SendEmail(render, transport, caseworkerEmail, "caseworker", data);
              var customer := SendEmail(render, transport, customerEmail, "customer", data);
        && d.sends == caseworker.sends + customer.sends
        && d.log == caseworker.log + customer.log
        && (d.outcome.Resolved? <==> caseworker.outcome.Resolved? && customer.outcome.Resolved?)
        && (d.outcome.Resolved? ==> d.outcome.value == Arr([caseworker.outcome.value, customer.outcome.value]))
        && (d.outcome.Rejected? ==> d.outcome == caseworker.outcome || d.outcome == customer.outcome)
      ensures |d.sends| <= 2
      ensures forall s :: s in d.sends ==> s.subject == subject && (s.to == caseworkerEmail || s.to == customerEmail)
    {
      var caseworker := SendEmail(render, transport, caseworkerEmail, "caseworker", data);
      var customer := SendEmail(render, transport, customerEmail, "customer", data);
      Dispatch(caseworker.sends + customer.sends, caseworker.log + customer.log,
               All2(caseworker.outcome, customer.outcome))
    }
  }
}
