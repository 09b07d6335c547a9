/** The notification-policy models and their recursive normaliser
    `convert_to_dict`, which turns dataclass instances, dicts and lists into
    plain JSON-ready dicts and lists. */
module NotificationPolicy {
  import opened Json

  /** A Python value as `convert_to_dict` sees it. Dict keys are strings (the
      models only have such dicts); a dataclass instance is its class name and
      its fields by name; any other object is its type name and its `str()`. */
  datatype PyValue =
    | PNone
    | PBool(b: bool)
    | PInt(i: int)
    | PFloat(text: string)
    | PStr(s: string)
    | PList(items: seq<PyValue>)
    | PDict(entries: map<string, PyValue>)
    | PDataclass(className: string, fields: map<string, PyValue>)
    | POther(typeName: string, text: string)

  /** `dataclasses.asdict` applied below a dataclass: nested dataclass instances
      become dicts of their fields, inside lists and dicts too; everything else
      is copied as it is. */
  function AsDictInner(v: PyValue): (r: PyValue)
    ensures Plain(r)
    ensures Plain(v) ==> r == v
  {
    match v
    case PDataclass(_, f) => PDict(map k | k in f :: AsDictInner(f[k]))
    case PList(items) => PList(seq(|items|, i requires 0 <= i < |items| => AsDictInner(items[i])))
    case PDict(m) => PDict(map k | k in m :: AsDictInner(m[k]))
    case _ => v
  }

  /** No dataclass instance anywhere inside. */
  predicate Plain(v: PyValue)
  {
    match v
    case PDataclass(_, _) => false
    case PList(items) => forall i :: 0 <= i < |items| ==> Plain(items[i])
    case PDict(m) => forall k :: k in m ==> Plain(m[k])
    case _ => true
  }

  /** `convert_to_dict`: a dataclass goes through `asdict` and each of its values
      is converted again; dicts keep their keys and convert their values; lists
      convert element-wise; str, int, float, bool and None are returned as they
      are; anything else becomes its string form. */
  function ConvertToDict(v: PyValue): (r: Json)
    ensures v.PDict? ==> r.JObj? && r.fields.Keys == v.entries.Keys
    ensures v.PDataclass? ==> r.JObj? && r.fields.Keys == v.fields.Keys
    ensures v.PList? ==> r.JList? && |r.items| == |v.items|
    ensures v.POther? ==> r == JStr(v.text)
    decreases if Plain(v) then 0 else 1, v
  {
    match v
    case PDataclass(_, f) => JObj(map k | k in f :: ConvertToDict(AsDictInner(f[k])))
    case PDict(m) => JObj(map k | k in m :: ConvertToDict(m[k]))
    case PList(items) => JList(seq(|items|, i requires 0 <= i < |items| => ConvertToDict(items[i])))
    case PStr(s) => JStr(s)
    case PInt(i) => JInt(i)
    case PFloat(t) => JFloat(t)
    case PBool(b) => JBool(b)
    case PNone => JNull
    case POther(_, text) => JStr(text)
  }

  /** A decoded JSON value as the Python object it is. */
  function FromJson(j: Json): (v: PyValue)
  {
    match j
    case JNull => PNone
    case JBool(b) => PBool(b)
    case JInt(i) => PInt(i)
    case JFloat(t) => PFloat(t)
    case JStr(s) => PStr(s)
    case JList(items) => PList(seq(|items|, i requires 0 <= i < |items| => FromJson(items[i])))
    case JObj(m) => PDict(map k | k in m :: FromJson(m[k]))
  }

  /** Plain dicts, lists and primitives come back unchanged. */
  lemma {:induction false} ConvertFromJson(j: Json)
    ensures ConvertToDict(FromJson(j)) == j
  {
    match j
    case JList(items) =>
      var r := ConvertToDict(FromJson(j)).items;
      forall i | 0 <= i < |items|
        ensures r[i] == items[i]
      {
        ConvertFromJson(items[i]);
      }
    case JObj(m) =>
      var r := ConvertToDict(FromJson(j)).fields;
      forall k | k in m
        ensures r[k] == m[k]
      {
        ConvertFromJson(m[k]);
      }
    case _ =>
  }

  /** The output holds only dicts, lists and primitives, so converting it again
      changes nothing. */
  lemma ConvertIdempotent(v: PyValue)
    ensures ConvertToDict(FromJson(ConvertToDict(v))) == ConvertToDict(v)
  {
    ConvertFromJson(ConvertToDict(v));
  }

  /** Going through `asdict` first does not change the result. */
  lemma {:induction false} ConvertAsDictInner(v: PyValue)
    ensures ConvertToDict(AsDictInner(v)) == ConvertToDict(v)
  {
    match v
    case PDataclass(_, f) =>
      var r := ConvertToDict(AsDictInner(v)).fields;
      forall k | k in f
        ensures r[k] == ConvertToDict(AsDictInner(f[k]))
      {
        ConvertAsDictInner(f[k]);
      }
    case PDict(m) =>
      var r := ConvertToDict(AsDictInner(v)).fields;
      forall k | k in m
        ensures r[k] == ConvertToDict(m[k])
      {
        ConvertAsDictInner(m[k]);
      }
    case PList(items) =>
      var r := ConvertToDict(AsDictInner(v)).items;
      forall i | 0 <= i < |items|
        ensures r[i] == ConvertToDict(items[i])
      {
        ConvertAsDictInner(items[i]);
      }
    case _ =>
  }

  /** A dataclass becomes the dict of its fields, each converted on its own:
      the same as converting a dict holding the same fields. */
  lemma DataclassAsFields(name: string, f: map<string, PyValue>)
    ensures ConvertToDict(PDataclass(name, f)) == ConvertToDict(PDict(f))
  {
    forall k | k in f
      ensures ConvertToDict(AsDictInner(f[k])) == ConvertToDict(f[k])
    {
      ConvertAsDictInner(f[k]);
    }
  }

  /** Lists are converted element by element, in order. */
  lemma ConvertList(items: seq<PyValue>, i: int)
    requires 0 <= i < |items|
    ensures ConvertToDict(PList(items)).items[i] == ConvertToDict(items[i])
  {
  }

  /** `NotificationPolicy`: the account dict, the `run_updated` section and the
      webhook endpoints, with the optional internal error and module version.
      The nested sections are dataclass instances and are kept as values. */
  datatype Policy = Policy(
    account: map<string, string>,
    runUpdated: PyValue,
    webhookEndpoints: seq<PyValue>,
    internalError: Option<PyValue>,
    moduleVersion: Option<map<string, PyValue>>)

  function OptionalValue(o: Option<PyValue>): PyValue
  {
    if o.Some? then o.value else PNone
  }

  /** The policy as the dataclass instance it is. */
  function AsObject(p: Policy): PyValue
  {
    PDataclass("NotificationPolicy", map[
      "account" := PDict(map k | k in p.account :: PStr(p.account[k])),
      "run_updated" := p.runUpdated,
      "webhook_endpoints" := PList(p.webhookEndpoints),
      "internal_error" := OptionalValue(p.internalError),
      "module_version" := if p.moduleVersion.Some? then PDict(p.moduleVersion.value) else PNone])
  }

  /** `to_dict`: a dict with one key per field of the policy. */
  function ToDict(p: Policy): (r: Json)
    ensures r.JObj?
    ensures r.fields.Keys == {"account", "run_updated", "webhook_endpoints", "internal_error", "module_version"}
  {
    ConvertToDict(AsObject(p))
  }

  /** A dataclass field `k` becomes the key `k`, holding the converted value. */
  lemma DataclassField(name: string, f: map<string, PyValue>, k: string)
    requires k in f
    ensures ConvertToDict(PDataclass(name, f)).fields[k] == ConvertToDict(f[k])
  {
    ConvertAsDictInner(f[k]);
  }

  /** A dict of strings converts to the same dict. */
  lemma StringDict(m: map<string, string>)
    ensures ConvertToDict(PDict(map k | k in m :: PStr(m[k]))) == JObj(map k | k in m :: JStr(m[k]))
  {
  }

  /** Each entry of `to_dict` is the converted field: the account keeps its
      entries, the endpoints their number and order, and an absent optional
      section is null. */
  lemma ToDictFields(p: Policy)
    ensures ToDict(p).fields["account"] == JObj(map k | k in p.account :: JStr(p.account[k]))
    ensures ToDict(p).fields["run_updated"] == ConvertToDict(p.runUpdated)
    ensures ToDict(p).fields["webhook_endpoints"] == ConvertToDict(PList(p.webhookEndpoints))
    ensures p.internalError.None? ==> ToDict(p).fields["internal_error"] == JNull
    ensures p.moduleVersion.None? ==> ToDict(p).fields["module_version"] == JNull
  {
    var o := AsObject(p);
    DataclassField(o.className, o.fields, "account");
    DataclassField(o.className, o.fields, "run_updated");
    DataclassField(o.className, o.fields, "webhook_endpoints");
    DataclassField(o.className, o.fields, "internal_error");
    DataclassField(o.className, o.fields, "module_version");
    StringDict(p.account);
  }
}
