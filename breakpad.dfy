/** The Breakpad dump callback (`modules/breakpad`): once a minidump has been written,
    it uploads the dump by launching `curl`, with the user's attributes appended to the
    upload URL as "&key=value" pieces. */
module BreakpadUpload {
  import opened Godot

  /** An external process launch: the program and its argument list. */
  datatype Command = Command(program: string, args: seq<string>)

  /** The piece of the upload URL that carries one attribute. */
  function AttributeField(key: string, value: string): string {
    "&" + key + "=" + value
  }

  /** The attribute text appended to the upload URL: one field per attribute, in index
      order, as the callback accumulates it. */
  function QueryString(attributes: Dictionary): string
    decreases |attributes|
  {
    if attributes == [] then ""
    else
      var last := attributes[|attributes| - 1];
      QueryString(attributes[..|attributes| - 1]) + AttributeField(last.0, last.1)
  }

  /** The attribute text of two dictionaries laid end to end is the text of the first
      followed by the text of the second. */
  lemma {:induction false} QueryStringAppend(front: Dictionary, back: Dictionary)
    ensures QueryString(front + back) == QueryString(front) + QueryString(back)
  {
    if back == [] {
      assert front + back == front;
    } else {
      var all := front + back;
      var n := |back| - 1;
      var field := AttributeField(back[n].0, back[n].1);
      assert all[..|all| - 1] == front + back[..n];
      assert all[|all| - 1] == back[n];
      calc {
        QueryString(all);
        QueryString(front + back[..n]) + field;
        { QueryStringAppend(front, back[..n]); }
        (QueryString(front) + QueryString(back[..n])) + field;
        QueryString(front) + (QueryString(back[..n]) + field);
        QueryString(front) + QueryString(back);
      }
    }
  }

  /** The attribute text starts with the field of the first attribute, followed by the
      text of the others: the fields appear in index order. */
  lemma QueryStringFirst(attributes: Dictionary)
    requires attributes != []
    ensures QueryString(attributes) ==
              AttributeField(attributes[0].0, attributes[0].1) + QueryString(attributes[1..])
  {
    assert attributes == [attributes[0]] + attributes[1..];
    QueryStringAppend([attributes[0]], attributes[1..]);
    assert [attributes[0]][..0] == [];
  }

  /** The index of the first `c` in `s` at or after `i`, or |s| when there is none. */
  function IndexFrom(s: string, c: char, i: nat): (j: nat)
    requires i <= |s|
    ensures i <= j <= |s|
    ensures j < |s| ==> s[j] == c
    ensures forall k :: i <= k < j ==> s[k] != c
    decreases |s| - i
  {
    if i == |s| || s[i] == c then i else IndexFrom(s, c, i + 1)
  }

  /** The first `c` at or after `i` is at `p` when `p` holds `c` (or is the end) and
      nothing from `i` up to `p` is `c`. */
  lemma IndexFromIs(s: string, c: char, i: nat, p: nat)
    requires i <= p <= |s|
    requires p < |s| ==> s[p] == c
    requires forall k :: i <= k < p ==> s[k] != c
    ensures IndexFrom(s, c, i) == p
  {
  }

  /** Splits "key=value" at its first '='; without one, the whole text is the key. */
  function SplitField(field: string): (string, string) {
    var e := IndexFrom(field, '=', 0);
    if e == |field| then (field, "") else (field[..e], field[e + 1..])
  }

  /** Reads attribute text back into key/value pairs: each '&' opens a field that runs
      to the next '&'. This is not part of the module; it is the inverse against which
      the attribute text is checked. */
  function ParseQuery(s: string): Dictionary
    decreases |s|
  {
    if s == [] || s[0] != '&' then []
    else
      var j := IndexFrom(s, '&', 1);
      [SplitField(s[1..j])] + ParseQuery(s[j..])
  }

  /** No key holds '&' or '=', and no value holds '&'. */
  predicate Unambiguous(attributes: Dictionary) {
    forall i :: 0 <= i < |attributes| ==>
      '&' !in attributes[i].0 && '=' !in attributes[i].0 && '&' !in attributes[i].1
  }

  /** The attribute text of a dictionary is empty or starts with '&'. */
  lemma QueryStringStartsWithSeparator(attributes: Dictionary)
    ensures QueryString(attributes) == [] || QueryString(attributes)[0] == '&'
  {
  }

  /** A field whose key has no '=' splits back into its key and value. */
  lemma SplitFieldRecovers(key: string, value: string)
    requires '=' !in key
    ensures SplitField(key + "=" + value) == (key, value)
  {
    var body := key + "=" + value;
    assert forall k :: 0 <= k < |key| ==> body[k] != '=' by {
      forall k | 0 <= k < |key| ensures body[k] != '=' {
        assert body[k] == key[k];
      }
    }
    IndexFromIs(body, '=', 0, |key|);
    assert body[..|key|] == key && body[|key| + 1..] == value;
  }

  /** The first field of attribute text is read back as its key and value, and reading
      goes on with the text after it. */
  lemma ParseFirstField(key: string, value: string, tail: string)
    requires '&' !in key && '=' !in key && '&' !in value
    requires tail == [] || tail[0] == '&'
    ensures ParseQuery(AttributeField(key, value) + tail) == [(key, value)] + ParseQuery(tail)
  {
    var field := AttributeField(key, value);
    var s := field + tail;
    assert forall k :: 1 <= k < |field| ==> s[k] != '&' by {
      forall k | 1 <= k < |field| ensures s[k] != '&' {
        assert s[k] == field[k];
        if k <= |key| {
          assert field[k] == key[k - 1];
        } else if k > |key| + 1 {
          assert field[k] == value[k - |key| - 2];
        }
      }
    }
    assert |field| < |s| ==> s[|field|] == tail[0];
    IndexFromIs(s, '&', 1, |field|);
    assert s[1..|field|] == key + "=" + value;
    assert s[|field|..] == tail;
    SplitFieldRecovers(key, value);
  }

  /** Every attribute can be read back from the upload URL, in order, provided keys and
      values do not contain the separators; the source does not escape them. */
  lemma {:induction false} QueryRoundTrip(attributes: Dictionary)
    requires Unambiguous(attributes)
    ensures ParseQuery(QueryString(attributes)) == attributes
  {
    if attributes != [] {
      var (key, value) := attributes[0];
      var rest := attributes[1..];
      assert Unambiguous(rest) by {
        forall i | 0 <= i < |rest| ensures rest[i] == attributes[i + 1] { }
      }
      calc {
        ParseQuery(QueryString(attributes));
        { QueryStringFirst(attributes); }
        ParseQuery(AttributeField(key, value) + QueryString(rest));
        { QueryStringStartsWithSeparator(rest);
          ParseFirstField(key, value, QueryString(rest)); }
        [(key, value)] + ParseQuery(QueryString(rest));
        { QueryRoundTrip(rest); }
        [(key, value)] + rest;
        attributes;
      }
    }
  }

  /** Without escaping, a value holding "&k=v" cannot be told apart from an extra
      attribute: two different dictionaries give the same upload URL. */
  lemma SeparatorInValueIsAmbiguous()
    ensures var one := [("a", "x&b=y")];
            var two := [("a", "x"), ("b", "y")];
            one != two && QueryString(one) == QueryString(two)
  {
  }

  /** The Breakpad configuration (all of it static in the source), and the record of
      the processes the dump callback has launched. */
  class Breakpad {
    var apiUrl: string
    var apiToken: string
    var skipErrorUpload: bool
    var crashAttributes: Dictionary
    ghost var executed: seq<Command>

    /** The static initialisers: nothing configured, nothing skipped, nothing launched. */
    constructor ()
      ensures apiUrl == "" && apiToken == "" && !skipErrorUpload && crashAttributes == []
      ensures executed == []
    {
      apiUrl := "";
      apiToken := "";
      skipErrorUpload := false;
      crashAttributes := [];
      executed := [];
    }

    method SetApiUrl(newUrl: string)
      modifies this`apiUrl
      ensures apiUrl == newUrl
    {
      apiUrl := newUrl;
    }

    method GetApiUrl() returns (url: string)
      ensures url == apiUrl
    {
      url := apiUrl;
    }

    method SetApiToken(newToken: string)
      modifies this`apiToken
      ensures apiToken == newToken
    {
      apiToken := newToken;
    }

    method GetApiToken() returns (token: string)
      ensures token == apiToken
    {
      token := apiToken;
    }

    method SetSkipErrorUpload(newValue: bool)
      modifies this`skipErrorUpload
      ensures skipErrorUpload == newValue
    {
      skipErrorUpload := newValue;
    }

    method GetSkipErrorUpload() returns (value: bool)
      ensures value == skipErrorUpload
    {
      value := skipErrorUpload;
    }

    method SetCrashAttributes(newValue: Dictionary)
      modifies this`crashAttributes
      ensures crashAttributes == newValue
    {
      crashAttributes := newValue;
    }

    method GetCrashAttributes() returns (value: Dictionary)
      ensures value == crashAttributes
    {
      value := crashAttributes;
    }

    /** `dump_callback`: unless uploads are skipped, launches `curl` once with "-v",
        "--data-binary", "@" and the dump's path, and the upload URL followed by the
        attribute text; either way it hands back `succeeded`. */
    method DumpCallback(dumpPath: string, succeeded: bool) returns (result: bool)
      modifies this`executed
      ensures result == succeeded
      ensures skipErrorUpload ==> executed == old(executed)
      ensures !skipErrorUpload ==>
                executed == old(executed) +
                  [Command("curl", ["-v", "--data-binary", "@" + dumpPath,
                                    apiUrl + apiToken + "/minidump" + QueryString(crashAttributes)])]
      ensures !skipErrorUpload && crashAttributes == [] ==>
                executed[|executed| - 1].args[3] == apiUrl + apiToken + "/minidump"
    {
      if skipErrorUpload {
        return succeeded;
      }

      var arguments: seq<string> := [];
      arguments := arguments + ["-v"];
      arguments := arguments + ["--data-binary"];
      arguments := arguments + ["@" + dumpPath];

      var argumentsString := "";
      var i := 0;
      while i < |crashAttributes|
        invariant 0 <= i <= |crashAttributes|
        invariant argumentsString == QueryString(crashAttributes[..i])
      {
        var (key, value) := crashAttributes[i];
        argumentsString := argumentsString + ("&" + key + "=" + value);
        assert crashAttributes[..i + 1][..i] == crashAttributes[..i];
        i := i + 1;
      }
      assert crashAttributes[..i] == crashAttributes;

      arguments := arguments + [apiUrl + apiToken + "/minidump" + argumentsString];
      assert arguments == ["-v", "--data-binary", "@" + dumpPath, apiUrl + apiToken + "/minidump" + argumentsString];
      executed := executed + [Command("curl", arguments)];
      return succeeded;
    }
  }

  /** A getter called after its setter returns the value set, and the other settings
      keep their values. */
  method SetThenGetCrashAttributes(breakpad: Breakpad, attributes: Dictionary) returns (value: Dictionary)
    modifies breakpad
    ensures value == attributes
    ensures breakpad.apiUrl == old(breakpad.apiUrl) && breakpad.apiToken == old(breakpad.apiToken)
    ensures breakpad.skipErrorUpload == old(breakpad.skipErrorUpload)
  {
    breakpad.SetCrashAttributes(attributes);
    value := breakpad.GetCrashAttributes();
  }
}
