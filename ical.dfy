/** The parsed calendar the relay rewrites: calendar-level properties under
    case-insensitive names, plus the ordered components (events). The field
    injection every outgoing calendar receives is specified here. */
module Ical {
  import opened Text
  import opened Confs

  datatype Option<T> = None | Some(value: T)

  /** A component property: text, or a date as a day number. */
  datatype Value = Txt(text: string) | Day(day: int)

  /** A component block such as a `VEVENT`. */
  datatype Component = Component(kind: string, props: map<string, Value>)

  /** A calendar as a value: properties by upper-cased name, and components. */
  datatype CalData = CalData(props: map<string, string>, components: seq<Component>)

  const NameKey: string := "NAME"
  const CalnameKey: string := "X-WR-CALNAME"
  const UrlKey: string := "URL"
  const RefreshKey: string := "REFRESH-INTERVAL;VALUE=DURATION"
  const DefaultCalname: string := AppName + " - Default Name"
  const RefreshEvery: string := "PT30M"

  /** The properties after `cal_inject_headers`: the display name copied from
      `NAME` (or the default name when `NAME` is empty), the relay's URL and a
      30-minute refresh interval; every other property, `NAME` included, is kept. */
  function Injected(props: map<string, string>): (r: map<string, string>)
    requires NameKey in props
    ensures r.Keys == props.Keys + {CalnameKey, UrlKey, RefreshKey}
    ensures r[CalnameKey] == (if props[NameKey] != "" then props[NameKey] else DefaultCalname)
    ensures r[UrlKey] == AppUrl && r[RefreshKey] == RefreshEvery
    ensures forall k :: k in props && k != CalnameKey && k != UrlKey && k != RefreshKey ==> r[k] == props[k]
    ensures r[NameKey] == props[NameKey]
  {
    props[CalnameKey := if props[NameKey] != "" then props[NameKey] else DefaultCalname]
         [UrlKey := AppUrl][RefreshKey := RefreshEvery]
  }

  /** Injecting twice is injecting once: the injection never changes `NAME`. */
  lemma InjectedIdempotent(props: map<string, string>)
    requires NameKey in props
    ensures Injected(Injected(props)) == Injected(props)
  {
    var once := Injected(props);
    assert once[NameKey] == props[NameKey];
  }

  /** `ical["NAME"] = f"{APP_NAME} {ical['NAME']}"`. */
  function Renamed(props: map<string, string>): map<string, string>
    requires NameKey in props
  {
    props[NameKey := AppName + " " + props[NameKey]]
  }

  /** The properties of a fetched calendar after the handler's rewrite. */
  function Rewritten(props: map<string, string>): (r: map<string, string>)
    requires NameKey in props
    ensures r.Keys == props.Keys + {CalnameKey, UrlKey, RefreshKey}
    ensures r[UrlKey] == AppUrl && r[RefreshKey] == RefreshEvery
    ensures forall k :: k in props && k != NameKey && k != CalnameKey && k != UrlKey && k != RefreshKey ==> r[k] == props[k]
  {
    Injected(Renamed(props))
  }

  /** After the rewrite the display name equals the new, prefixed `NAME`, so
      the default-name fallback is never taken on this path. */
  lemma RewrittenCalname(props: map<string, string>)
    requires NameKey in props
    ensures Rewritten(props)[NameKey] == AppName + " " + props[NameKey]
    ensures Rewritten(props)[CalnameKey] == Rewritten(props)[NameKey]
  {
    var renamed := Renamed(props);
    assert renamed[NameKey] != "";
  }

  /** The rewrite is not idempotent: a second pass prefixes the name again. */
  lemma RewriteTwicePrefixesTwice(props: map<string, string>)
    requires NameKey in props
    ensures Rewritten(Rewritten(props))[NameKey] == AppName + " " + AppName + " " + props[NameKey]
    ensures Rewritten(Rewritten(props)) != Rewritten(props)
  {
    RewrittenCalname(props);
    RewrittenCalname(Rewritten(props));
    var once := Rewritten(props)[NameKey];
    assert |AppName + " " + once| > |once|;
  }

  /** The names the source writes in upper case are their own upper-case form. */
  lemma NameKeysFold()
    ensures Upper("NAME") == NameKey
    ensures Upper("X-WR-CALNAME") == CalnameKey
    ensures Upper("URL") == UrlKey
  {
    assert forall i | 0 <= i < |NameKey| :: UpperChar(NameKey[i]) == NameKey[i];
    assert forall i | 0 <= i < |CalnameKey| :: UpperChar(CalnameKey[i]) == CalnameKey[i];
    assert forall i | 0 <= i < |UrlKey| :: UpperChar(UrlKey[i]) == UrlKey[i];
  }

  /** The source spells the refresh key with a lower-case final `l`; names are
      case-insensitive, so it lands on the upper-case key. */
  lemma RefreshKeyFolds()
    ensures Upper("REFRESH-INTERVAl;VALUE=DURATION") == RefreshKey
  {
    var s := "REFRESH-INTERVAl;VALUE=DURATION";
    assert forall i | 0 <= i < |s| :: UpperChar(s[i]) == RefreshKey[i];
  }

  /** A mutable calendar whose item assignments update `props` in place. */
  class Calendar {
    var props: map<string, string>
    var components: seq<Component>

    /** `Calendar()`: no properties, no components. */
    constructor ()
      ensures props == map[] && components == []
    {
      props := map[];
      components := [];
    }

    /** The calendar `Calendar.from_ical` returned. */
    constructor FromData(d: CalData)
      ensures Data() == d
    {
      props := d.props;
      components := d.components;
    }

    function Data(): CalData
      reads this
    {
      CalData(props, components)
    }

    /** `cal[key] = value`: the name is stored upper-cased. */
    method Set(key: string, value: string)
      modifies this
      ensures props == old(props)[Upper(key) := value]
      ensures components == old(components)
    {
      props := props[Upper(key) := value];
    }

    /** `cal[key]`; `None` where Python raises `KeyError`. */
    method Get(key: string) returns (v: Option<string>)
      ensures Upper(key) in props ==> v == Some(props[Upper(key)])
      ensures Upper(key) !in props ==> v == None
    {
      var k := Upper(key);
      if k in props {
        v := Some(props[k]);
      } else {
        v := None;
      }
    }

    /** `cal.add_component(c)`: appended after the existing components. */
    method AddComponent(c: Component)
      modifies this
      ensures components == old(components) + [c]
      ensures props == old(props)
    {
      components := components + [c];
    }

    /** The handler's `NAME` rewrite; `ok` is false where reading `NAME`
        raises `KeyError`, and then nothing changes. */
    method PrefixName() returns (ok: bool)
      modifies this
      ensures ok <==> NameKey in old(props)
      ensures ok ==> props == Renamed(old(props))
      ensures !ok ==> props == old(props)
      ensures components == old(components)
    {
      NameKeysFold();
      var name := Get("NAME");
      if name.None? {
        return false;
      }
      Set("NAME", AppName + " " + name.value);
      return true;
    }

    /** `cal_inject_headers`. Both callers set `NAME` first. */
    method InjectHeaders()
      requires NameKey in props
      modifies this
      ensures props == Injected(old(props))
      ensures components == old(components)
    {
      NameKeysFold();
      RefreshKeyFolds();
      var name := Get("NAME");
      Set("X-WR-CALNAME", if name.value != "" then name.value else DefaultCalname);
      Set("URL", AppUrl);
      Set("REFRESH-INTERVAl;VALUE=DURATION", RefreshEvery);
    }
  }
}
