/** The structured logger's data handling: the redaction of secrets from the
    request and response dictionaries it is given, and the building of one
    log entry from a level, a component, an event and keyword fields. The
    time stamp is a parameter; JSON encoding and the log handlers are not modelled.
    Before any of that Python binds the call's arguments, and a keyword that
    names one of `_log`'s own parameters makes the call raise. */
module Logger {
  import opened Wrappers
  import opened Text
  import opened Domain

  /** The keys whose values are replaced wholesale. */
  const SensitiveFields: seq<string> := ["api_secret", "apiKey", "signature", "BINANCE_API_SECRET"]

  /** What a sensitive value is replaced with. */
  const Redaction: string := "***REDACTED***"

  /** An API key longer than this keeps only its first and last four characters. */
  const MaskAbove: nat := 8

  /** `data` with every one of `fields` it holds replaced by the redaction, one field after the other. */
  function Redacted(data: map<string, Value>, fields: seq<string>): (out: map<string, Value>)
    ensures out.Keys == data.Keys
    ensures forall k :: k in data && k in fields ==> out[k] == Str(Redaction)
    ensures forall k :: k in data && k !in fields ==> out[k] == data[k]
    decreases |fields|
  {
    if fields == [] then data
    else
      var before := Redacted(data, fields[..|fields| - 1]);
      var field := fields[|fields| - 1];
      assert forall k :: k in fields <==> k in fields[..|fields| - 1] || k == field;
      if field in before then before[field := Str(Redaction)] else before
  }

  /** Redacting one more field redacts it on top of the fields before it. */
  lemma RedactedStep(data: map<string, Value>, fields: seq<string>, j: nat)
    requires j < |fields|
    ensures Redacted(data, fields[..j + 1]) ==
      var before := Redacted(data, fields[..j]);
      if fields[j] in before then before[fields[j] := Str(Redaction)] else before
  {
    assert fields[..j + 1][..j] == fields[..j];
  }

  /** The first four characters, three asterisks, the last four. */
  function MaskedKey(key: string): (masked: string)
    requires |key| > MaskAbove
    ensures |masked| == 11
    ensures masked[..4] == key[..4] && masked[7..] == key[|key| - 4..]
  {
    key[..4] + "***" + key[|key| - 4..]
  }

  /** `_sanitize_data`: the sensitive fields redacted, then a long string API key masked. */
  function Sanitized(data: map<string, Value>): (out: map<string, Value>)
    ensures out.Keys == data.Keys
    ensures forall k :: k in data && k in SensitiveFields ==> out[k] == Str(Redaction)
    ensures "api_key" in data && data["api_key"].Str? && |data["api_key"].s| > MaskAbove ==>
      out["api_key"] == Str(MaskedKey(data["api_key"].s))
    ensures "api_key" in data && !(data["api_key"].Str? && |data["api_key"].s| > MaskAbove) ==>
      out["api_key"] == data["api_key"]
    ensures forall k :: k in data && k !in SensitiveFields && k != "api_key" ==> out[k] == data[k]
  {
    var redacted := Redacted(data, SensitiveFields);
    assert "api_key" !in SensitiveFields;
    if "api_key" in redacted && redacted["api_key"].Str? && |redacted["api_key"].s| > MaskAbove then
      redacted["api_key" := Str(MaskedKey(redacted["api_key"].s))]
    else
      redacted
  }

  /** Masking a masked key changes nothing. */
  lemma MaskedKeyStable(key: string)
    requires |key| > MaskAbove
    ensures MaskedKey(MaskedKey(key)) == MaskedKey(key)
  {
    var m := MaskedKey(key);
    assert m[|m| - 4..] == m[7..];
  }

  /** Sanitising sanitised data changes nothing: no secret is left to redact
      and the masked key keeps its mask. */
  lemma SanitizedIdempotent(data: map<string, Value>)
    ensures Sanitized(Sanitized(data)) == Sanitized(data)
  {
    var once := Sanitized(data);
    var twice := Sanitized(once);
    if "api_key" in data && data["api_key"].Str? && |data["api_key"].s| > MaskAbove {
      MaskedKeyStable(data["api_key"].s);
    }
    assert forall k :: k in once ==> twice[k] == once[k];
  }

  /** The value a keyword field is logged with: a dictionary under `request`
      or `response` sanitised, anything else as given. */
  function Field(key: string, value: Value): (logged: Value)
    ensures key in {"request", "response"} && value.Dict? ==> logged == Dict(Sanitized(value.fields))
    ensures !(key in {"request", "response"} && value.Dict?) ==> logged == value
  {
    if key in {"request", "response"} && value.Dict? then Dict(Sanitized(value.fields)) else value
  }

  /** The four fields every entry starts with. */
  function Header(level: string, component: string, event: string, timestamp: string): map<string, Value> {
    map["timestamp" := Str(timestamp), "level" := Str(Upper(level)), "component" := Str(component), "event" := Str(event)]
  }

  /** The entry `_log` builds: the header, then each keyword field in order. */
  function Entry(level: string, component: string, event: string, timestamp: string,
                 kwargs: seq<(string, Value)>): map<string, Value>
    decreases |kwargs|
  {
    if kwargs == [] then Header(level, component, event, timestamp)
    else
      var last := kwargs[|kwargs| - 1];
      Entry(level, component, event, timestamp, kwargs[..|kwargs| - 1])[last.0 := Field(last.0, last.1)]
  }

  /** The names of the keyword fields. */
  function Keys(kwargs: seq<(string, Value)>): set<string> {
    set i | 0 <= i < |kwargs| :: kwargs[i].0
  }

  /** Keyword names are distinct, as Python's keyword arguments are. */
  predicate DistinctKeys(kwargs: seq<(string, Value)>) {
    forall i, j :: 0 <= i < j < |kwargs| ==> kwargs[i].0 != kwargs[j].0
  }

  /** An entry has the header's keys and the keyword names, nothing else. */
  lemma {:induction false} EntryKeys(level: string, component: string, event: string, timestamp: string,
                                     kwargs: seq<(string, Value)>)
    ensures Entry(level, component, event, timestamp, kwargs).Keys ==
      {"timestamp", "level", "component", "event"} + Keys(kwargs)
    decreases |kwargs|
  {
    if kwargs != [] {
      var init := kwargs[..|kwargs| - 1];
      EntryKeys(level, component, event, timestamp, init);
      assert Keys(kwargs) == Keys(init) + {kwargs[|kwargs| - 1].0} by {
        forall k | k in Keys(kwargs) ensures k in Keys(init) + {kwargs[|kwargs| - 1].0} {
          var i :| 0 <= i < |kwargs| && kwargs[i].0 == k;
          if i < |kwargs| - 1 {
            assert init[i].0 == k;
          }
        }
        forall k | k in Keys(init) ensures k in Keys(kwargs) {
          var i :| 0 <= i < |init| && init[i].0 == k;
          assert kwargs[i].0 == k;
        }
      }
    }
  }

  /** With distinct keyword names every keyword field is logged with its
      (possibly sanitised) value. */
  lemma {:induction false} EntryFields(level: string, component: string, event: string, timestamp: string,
                                       kwargs: seq<(string, Value)>, i: nat)
    requires DistinctKeys(kwargs) && i < |kwargs|
    ensures var entry := Entry(level, component, event, timestamp, kwargs);
      kwargs[i].0 in entry && entry[kwargs[i].0] == Field(kwargs[i].0, kwargs[i].1)
    decreases |kwargs|
  {
    if i < |kwargs| - 1 {
      var init := kwargs[..|kwargs| - 1];
      assert init[i] == kwargs[i];
      EntryFields(level, component, event, timestamp, init, i);
    }
  }

  /** A header field no keyword names keeps its header value: the upper-cased
      level, the component, the event and the time stamp. */
  lemma {:induction false} EntryHeader(level: string, component: string, event: string, timestamp: string,
                                       kwargs: seq<(string, Value)>, key: string)
    requires key in Header(level, component, event, timestamp) && key !in Keys(kwargs)
    ensures var entry := Entry(level, component, event, timestamp, kwargs);
      key in entry && entry[key] == Header(level, component, event, timestamp)[key]
    decreases |kwargs|
  {
    if kwargs != [] {
      var init := kwargs[..|kwargs| - 1];
      assert kwargs[|kwargs| - 1].0 != key;
      EntryHeader(level, component, event, timestamp, init, key);
    }
  }

  /** The parameters `info`, `warning`, `error`, `debug` and `_log` fill by position. */
  const Parameters: set<string> := {"self", "level", "component", "event"}

  /** Binding a call's keyword names: a name that repeats a parameter given by
      position is a second value for it, and Python raises a TypeError. */
  function BindError(names: seq<string>): (e: Option<Error>)
    ensures e.Some? <==> exists i :: 0 <= i < |names| && names[i] in Parameters
    ensures e.Some? ==> e.value == DuplicateArgumentError
  {
    if exists i :: 0 <= i < |names| && names[i] in Parameters then Some(DuplicateArgumentError) else None
  }

  function Names(kwargs: seq<(string, Value)>): (names: seq<string>)
    ensures |names| == |kwargs|
    ensures forall i :: 0 <= i < |kwargs| ==> names[i] == kwargs[i].0
  {
    seq(|kwargs|, i requires 0 <= i < |kwargs| => kwargs[i].0)
  }

  /** A call of `info`, `warning`, `error` or `debug` with level `level`: the
      arguments are bound, then `_log` builds the entry. */
  function Log(level: string, component: string, event: string, timestamp: string,
               kwargs: seq<(string, Value)>): Result<map<string, Value>, Error>
  {
    match BindError(Names(kwargs))
    case Some(e) => Err(e)
    case None => Ok(Entry(level, component, event, timestamp, kwargs))
  }

  /** A call raises exactly when a keyword names a parameter; so an entry
      that is logged always carries its own level, component and event. */
  lemma LogOutcome(level: string, component: string, event: string, timestamp: string, kwargs: seq<(string, Value)>)
    ensures Log(level, component, event, timestamp, kwargs).Err? <==>
      exists i :: 0 <= i < |kwargs| && kwargs[i].0 in Parameters
    ensures Log(level, component, event, timestamp, kwargs).Err? ==>
      Log(level, component, event, timestamp, kwargs).error == DuplicateArgumentError
    ensures Log(level, component, event, timestamp, kwargs).Ok? ==>
      var entry := Log(level, component, event, timestamp, kwargs).value;
      && "level" in entry && entry["level"] == Str(Upper(level))
      && "component" in entry && entry["component"] == Str(component)
      && "event" in entry && entry["event"] == Str(event)
  {
    var names := Names(kwargs);
    if BindError(names).None? {
      EntryHeader(level, component, event, timestamp, kwargs, "level");
      EntryHeader(level, component, event, timestamp, kwargs, "component");
      EntryHeader(level, component, event, timestamp, kwargs, "event");
    } else {
      var i :| 0 <= i < |names| && names[i] in Parameters;
      assert kwargs[i].0 in Parameters;
    }
  }

  /** `StructuredLogger`'s data steps. */
  class StructuredLogger {
    constructor()
    {
    }

    /** `_sanitize_data`: a copy of `data` whose sensitive fields are
        overwritten one by one, then whose long string API key is masked. */
    method SanitizeData(data: map<string, Value>) returns (sanitized: map<string, Value>)
      ensures sanitized == Sanitized(data)
    {
      sanitized := data;
      for j := 0 to |SensitiveFields|
        invariant sanitized == Redacted(data, SensitiveFields[..j])
      {
        var field := SensitiveFields[j];
        RedactedStep(data, SensitiveFields, j);
        if field in sanitized {
          sanitized := sanitized[field := Str(Redaction)];
        }
      }
      assert SensitiveFields[..|SensitiveFields|] == SensitiveFields;
      if "api_key" in sanitized && sanitized["api_key"].Str? {
        var apiKey := sanitized["api_key"].s;
        if |apiKey| > MaskAbove {
          sanitized := sanitized["api_key" := Str(MaskedKey(apiKey))];
        }
      }
    }

    /** The entry-building part of `_log`: the header, then each keyword
        field inserted in turn, a `request` or `response` dictionary sanitised. */
    method BuildEntry(level: string, component: string, event: string, timestamp: string,
                      kwargs: seq<(string, Value)>) returns (entry: map<string, Value>)
      ensures entry == Entry(level, component, event, timestamp, kwargs)
    {
      entry := map["timestamp" := Str(timestamp), "level" := Str(Upper(level)),
                   "component" := Str(component), "event" := Str(event)];
      for j := 0 to |kwargs|
        invariant entry == Entry(level, component, event, timestamp, kwargs[..j])
      {
        var (key, value) := kwargs[j];
        assert kwargs[..j + 1][..j] == kwargs[..j];
        if key in {"request", "response"} && value.Dict? {
          var clean := SanitizeData(value.fields);
          entry := entry[key := Dict(clean)];
        } else {
          entry := entry[key := value];
        }
      }
      assert kwargs[..|kwargs|] == kwargs;
    }
  }
}
