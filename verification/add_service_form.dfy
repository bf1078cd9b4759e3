/** The add-service form of the web client: a name, a list of URL fields that
    is never empty, an expanded/collapsed flag, and the submit guard that only
    passes a name and URLs that are all non-blank. */
module AddServiceForm {
  import opened Util
  import Registry

  /** What the form hands to its `onAdd` callback. */
  datatype NewService = NewService(name: string, urls: seq<string>)

  /** The characters `String.prototype.trim` removes: the ECMAScript
      WhiteSpace and LineTerminator characters. */
  predicate IsJsWhitespace(c: char)
  {
    || c == '\t' || c == '\n' || c == '\U{000B}' || c == '\U{000C}' || c == '\r'
    || c == ' ' || c == '\U{00A0}' || c == '\U{1680}'
    || ('\U{2000}' <= c <= '\U{200A}')
    || c == '\U{2028}' || c == '\U{2029}' || c == '\U{202F}' || c == '\U{205F}'
    || c == '\U{3000}' || c == '\U{FEFF}'
  }

  predicate IsBlank(s: string)
  {
    forall i | 0 <= i < |s| :: IsJsWhitespace(s[i])
  }

  /** `s` without its leading whitespace. */
  function TrimStart(s: string): (r: string)
    ensures |r| <= |s| && r == s[|s| - |r|..]
    ensures IsBlank(s[..|s| - |r|])
    ensures r != [] ==> !IsJsWhitespace(r[0])
  {
    if s != [] && IsJsWhitespace(s[0]) then TrimStart(s[1..]) else s
  }

  /** `s` without its trailing whitespace. */
  function TrimEnd(s: string): (r: string)
    ensures |r| <= |s| && r == s[..|r|]
    ensures IsBlank(s[|r|..])
    ensures r != [] ==> !IsJsWhitespace(r[|r| - 1])
  {
    if s != [] && IsJsWhitespace(s[|s| - 1]) then TrimEnd(s[..|s| - 1]) else s
  }

  /** `s.trim()`: empty exactly for a blank string, and otherwise starting and
      ending with a character that is not whitespace. */
  function Trim(s: string): (r: string)
    ensures r == "" <==> IsBlank(s)
    ensures r != "" ==> !IsJsWhitespace(r[0]) && !IsJsWhitespace(r[|r| - 1])
  {
    var t := TrimStart(s);
    assert s == s[..|s| - |t|] + t;
    TrimEnd(t)
  }

  /** The submit guard: `name && urls.every((url) => url.trim())`. */
  predicate CanSubmit(name: string, urls: seq<string>)
  {
    name != "" && forall i | 0 <= i < |urls| :: Trim(urls[i]) != ""
  }

  /** `urls.filter((url) => url.trim())` */
  function NonBlankUrls(urls: seq<string>): seq<string>
  {
    Filter(urls, (u: string) => Trim(u) != "")
  }

  /** Under the submit guard the filter removes nothing. */
  lemma GuardedFilterKeepsAll(name: string, urls: seq<string>)
    requires CanSubmit(name, urls)
    ensures NonBlankUrls(urls) == urls
  {
    FilterUnchangedIffAllKept(urls, (u: string) => Trim(u) != "");
  }

  /** `urls.filter((_, i) => i !== index)`: drops the element at `index`, or
      nothing when `index` is not a position of `s`. */
  function WithoutIndex(s: seq<string>, index: int): (r: seq<string>)
    ensures 0 <= index < |s| ==> r == s[..index] + s[index + 1..]
    ensures !(0 <= index < |s|) ==> r == s
  {
    if s == [] then []
    else (if index == 0 then [] else [s[0]]) + WithoutIndex(s[1..], index - 1)
  }

  class Form {
    var isExpanded: bool
    var name: string
    var urls: seq<string>

    /** The URL field list is never empty. */
    ghost predicate Valid()
      reads this
    {
      |urls| >= 1
    }

    constructor ()
      ensures Valid()
      ensures !isExpanded && name == "" && urls == [""]
    {
      isExpanded, name, urls := false, "", [""];
    }

    /** The toggle button. */
    method Toggle()
      modifies this
      ensures isExpanded == !old(isExpanded)
      ensures name == old(name) && urls == old(urls)
    {
      isExpanded := !isExpanded;
    }

    /** The name input's `onChange`. */
    method SetName(value: string)
      modifies this
      ensures name == value
      ensures isExpanded == old(isExpanded) && urls == old(urls)
    {
      name := value;
    }

    /** `handleUrlChange`: the index comes from rendering the fields, so it is
        a position of the list. */
    method HandleUrlChange(index: int, value: string)
      requires Valid() && 0 <= index < |urls|
      modifies this
      ensures Valid()
      ensures |urls| == |old(urls)| && urls[index] == value
      ensures forall j | 0 <= j < |urls| && j != index :: urls[j] == old(urls)[j]
      ensures isExpanded == old(isExpanded) && name == old(name)
    {
      var newUrls := urls;
      newUrls := newUrls[index := value];
      urls := newUrls;
    }

    /** `addUrlField` */
    method AddUrlField()
      requires Valid()
      modifies this
      ensures Valid()
      ensures urls == old(urls) + [""]
      ensures isExpanded == old(isExpanded) && name == old(name)
    {
      urls := urls + [""];
    }

    /** `removeUrlField`: only while more than one field is left. */
    method RemoveUrlField(index: int)
      requires Valid()
      modifies this
      ensures Valid()
      ensures |old(urls)| > 1 && 0 <= index < |old(urls)| ==>
        urls == old(urls)[..index] + old(urls)[index + 1..]
      ensures !(|old(urls)| > 1 && 0 <= index < |old(urls)|) ==> urls == old(urls)
      ensures isExpanded == old(isExpanded) && name == old(name)
    {
      if |urls| > 1 {
        urls := WithoutIndex(urls, index);
      }
    }

    /** `handleSubmit`: returns what is passed to `onAdd`, if anything. On
        success the form is reset and collapsed; otherwise nothing changes. */
    method HandleSubmit() returns (submitted: Option<NewService>)
      requires Valid()
      modifies this
      ensures Valid()
      ensures CanSubmit(old(name), old(urls)) ==>
        && submitted == Some(NewService(old(name), old(urls)))
        && name == "" && urls == [""] && !isExpanded
      ensures !CanSubmit(old(name), old(urls)) ==>
        && submitted == None
        && name == old(name) && urls == old(urls) && isExpanded == old(isExpanded)
      ensures submitted.Some? ==>
        Registry.CreateAccepted(Registry.CreateRequest(Some(submitted.value.name), Some(submitted.value.urls)))
    {
      if CanSubmit(name, urls) {
        GuardedFilterKeepsAll(name, urls);
        submitted := Some(NewService(name, NonBlankUrls(urls)));
        name := "";
        urls := [""];
        isExpanded := false;
      } else {
        submitted := None;
      }
    }
  }
}
