/**
 * The legacy `Socrata::Dataset` of lib/socrata/dataset.rb: a handle on one
 * dataset, identified by its "four-four" id, that posts rows and columns,
 * keeps a list of delayed row records, filters the views of a user by tag
 * and builds links to the dataset.
 *
 * Its base class `SocrataAPI` is not part of this model: its configuration
 * values are constants of the object and its `check_error` is a given
 * function of the stored response.
 */
module SocrataDataset {
  import opened RubyValue
  import opened Http

  // ---------------------------------------------------------------------------
  // `is_id`: `id =~ /[0-9a-z]{4}-[0-9a-z]{4}/`
  // ---------------------------------------------------------------------------

  predicate IdChar(c: char) {
    '0' <= c <= '9' || 'a' <= c <= 'z'
  }

  /** A four-four id starts at index `i` of `s`. */
  predicate IdAt(s: string, i: int) {
    && 0 <= i && i + 9 <= |s|
    && IdChar(s[i]) && IdChar(s[i + 1]) && IdChar(s[i + 2]) && IdChar(s[i + 3])
    && s[i + 4] == '-'
    && IdChar(s[i + 5]) && IdChar(s[i + 6]) && IdChar(s[i + 7]) && IdChar(s[i + 8])
  }

  /** The leftmost match at or after `from`, as the unanchored regexp finds it. */
  function FindId(s: string, from: nat): (r: Option<nat>)
    ensures r.Some? ==> from <= r.value && IdAt(s, r.value)
    ensures r.Some? ==> forall j :: from <= j < r.value ==> !IdAt(s, j)
    ensures r.None? ==> forall j :: from <= j ==> !IdAt(s, j)
    decreases |s| - from
  {
    if from + 9 > |s| then None
    else if IdAt(s, from) then Some(from)
    else FindId(s, from + 1)
  }

  /** `id =~ re`: the match position for a String or Symbol, nil otherwise (nil included). */
  function MatchId(id: Value): (r: Value)
    ensures r.Nil? || r.Int?
    ensures r.Int? ==> (id.Str? || id.Sym?) && r.i >= 0 && IdAt(Text(id), r.i)
    ensures r.Int? ==> forall j :: 0 <= j < r.i ==> !IdAt(Text(id), j)
    ensures r.Nil? ==> forall j :: !IdAt(Text(id), j)
  {
    match id
    case Str(s) => (match FindId(s, 0) case Some(i) => Int(i) case None => Nil)
    case Sym(s) => (match FindId(s, 0) case Some(i) => Int(i) case None => Nil)
    case _ => Nil
  }

  /** `is_id` as a condition: a match position, even 0, is truthy. */
  predicate IsId(id: Value)
    ensures IsId(id) ==> (id.Str? || id.Sym?) && |Text(id)| >= 9
  {
    Truthy(MatchId(id))
  }

  function Text(id: Value): string {
    if id.Str? then id.s else if id.Sym? then id.name else ""
  }

  /** `is_id` holds exactly for a String or Symbol with a four-four id somewhere in it. */
  lemma IsIdIff(id: Value)
    ensures IsId(id) <==> (id.Str? || id.Sym?) && exists i :: IdAt(Text(id), i)
  {
    if id.Str? || id.Sym? {
      var s := Text(id);
      if exists i :: IdAt(s, i) {
        var i :| IdAt(s, i);
        assert FindId(s, 0).Some?;
      }
    }
  }

  /** The regexp is not anchored: text around an id does not hide it. */
  lemma IsIdUnanchored(pre: string, s: string, post: string)
    requires IsId(Str(s))
    ensures IsId(Str(pre + s + post))
  {
    var i := FindId(s, 0).value;
    var t := pre + s + post;
    assert forall k :: 0 <= k < |s| ==> t[|pre| + k] == s[k];
    assert IdAt(t, |pre| + i);
    IsIdIff(Str(t));
  }

  /** A canonical four-four id is one; upper case letters are not id characters. */
  lemma IsIdExamples()
    ensures IsId(Str("n5m4-mism"))
    ensures !IsId(Str("N5M4-MISM"))
    ensures !IsId(Nil)
  {
    assert IdAt("n5m4-mism", 0);
    var u := "N5M4-MISM";
    assert !IdAt(u, 0);
  }

  // ---------------------------------------------------------------------------
  // Payloads
  // ---------------------------------------------------------------------------

  /** `create`'s payload: name and description, then `:flags` if public, then `:tags` unless empty. */
  function CreatePayload(title: Value, description: Value, tags: seq<Value>, public: Value): (p: Entries)
    ensures |p| == 2 + (if Truthy(public) then 1 else 0) + (if tags == [] then 0 else 1)
    ensures UniqueKeys(p)
    ensures p[..2] == [(Str("name"), title), (Str("description"), description)]
    ensures Truthy(public) <==> (Sym("flags"), Arr([Str("dataPublic")])) in p
    ensures tags != [] <==> (Sym("tags"), Arr(tags)) in p
  {
    [(Str("name"), title), (Str("description"), description)]
      + (if Truthy(public) then [(Sym("flags"), Arr([Str("dataPublic")]))] else [])
      + (if tags == [] then [] else [(Sym("tags"), Arr(tags))])
  }

  /** `add_column`'s payload: always the five attributes, and `:format` exactly when `rich`. */
  function ColumnPayload(name: Value, description: Value, dataType: Value, hidden: Value, rich: Value, width: Value): (p: Entries)
    ensures Truthy(rich) <==> |p| == 6
    ensures |p| == 5 || |p| == 6
    ensures UniqueKeys(p)
    ensures p[..5] == [(Sym("name"), name), (Sym("dataTypeName"), dataType), (Sym("description"), description),
                       (Sym("hidden"), hidden), (Sym("width"), width)]
    ensures Truthy(rich) ==> p[5] == (Sym("format"), Hash([(Sym("formatting_option"), Str("Rich"))]))
  {
    [(Sym("name"), name), (Sym("dataTypeName"), dataType), (Sym("description"), description),
     (Sym("hidden"), hidden), (Sym("width"), width)]
      + (if Truthy(rich) then [(Sym("format"), Hash([(Sym("formatting_option"), Str("Rich"))]))] else [])
  }

  /** The record `add_row_delayed` appends. */
  function DelayedRecord(id: Value, body: string): Value {
    Hash([(Sym("url"), Str(RowsPath(id))), (Sym("requestType"), Str("POST")), (Sym("body"), Str(body))])
  }

  function RowsPath(id: Value): string {
    "/views/" + ToS(id) + "/rows.json"
  }

  function BodyOf(json: string): Entries {
    [(Sym("body"), Str(json))]
  }

  // ---------------------------------------------------------------------------
  // `find_sets` tag filtering
  // ---------------------------------------------------------------------------

  /** `tags.include?(tag)` on what a view's `tags` may hold. */
  function Includes(tags: Value, tag: Value): (r: Result<bool>)
    ensures r.Ok? <==> tags.Arr? || tags.Hash? || (tags.Str? && tag.Str?)
    ensures tags.Arr? ==> (r == Ok(true) <==> exists i :: 0 <= i < |tags.elems| && tags.elems[i] == tag)
  {
    match tags
    case Arr(es) => Ok(tag in es)
    case Hash(kvs) => Ok(tag in Keys(kvs))
    case Str(s) => if tag.Str? then Ok(IsSubstring(tag.s, s)) else Err(TypeError)
    case _ => Err(NoMethodError)
  }

  /** The block `v['tags'] && v['tags'].include?(tag)`. */
  function Tagged(v: Value, tag: Value): (r: Result<bool>)
    ensures v.Hash? && Str("tags") !in Keys(v.entries) ==> r == Ok(false)
    ensures v.Hash? && Fetch(v.entries, Str("tags")).Arr? ==> r == Ok(tag in Fetch(v.entries, Str("tags")).elems)
    ensures (v.Nil? || v.Bool?) ==> r == Err(NoMethodError)
  {
    match Index(v, "tags")
    case Err(e) => Err(e)
    case Ok(tags) => if Truthy(tags) then Includes(tags, tag) else Ok(false)
  }

  /** The block of `select` / `delete_if` for a tag. */
  function TagTest(tag: Value): Value -> Result<bool> {
    v => Tagged(v, tag)
  }

  /**
   * The elements `v` of `vs` with `test(v) == Ok(keep)`, in order (`select`
   * for keep, `delete_if` for not keep); the first raising block makes the
   * whole call raise.
   */
  function Select(test: Value -> Result<bool>, vs: seq<Value>, keep: bool): Result<seq<Value>> {
    if vs == [] then Ok([])
    else match Select(test, vs[..|vs| - 1], keep)
      case Err(e) => Err(e)
      case Ok(kept) =>
        match test(vs[|vs| - 1])
        case Err(e) => Err(e)
        case Ok(b) => Ok(if b == keep then kept + [vs[|vs| - 1]] else kept)
  }

  /** `find_sets`' filter: the views whose `Tagged(v, tag)` is `keep`. */
  function Filter(vs: seq<Value>, tag: Value, keep: bool): Result<seq<Value>> {
    Select(TagTest(tag), vs, keep)
  }

  lemma {:induction false} SelectErrPersists(test: Value -> Result<bool>, vs: seq<Value>, keep: bool, n: nat)
    requires n <= |vs| && Select(test, vs[..n], keep).Err?
    ensures Select(test, vs, keep) == Select(test, vs[..n], keep)
    decreases |vs| - n
  {
    if n < |vs| {
      assert vs[..n + 1][..n] == vs[..n];
      SelectErrPersists(test, vs, keep, n + 1);
    } else {
      assert vs[..n] == vs;
    }
  }

  /** The loop `select` / `delete_if` makes over the result array. */
  method FilterViews(vs: seq<Value>, tag: Value, keep: bool) returns (r: Result<seq<Value>>)
    ensures r == Filter(vs, tag, keep)
  {
    var kept: seq<Value> := [];
    var i := 0;
    while i < |vs|
      invariant 0 <= i <= |vs|
      invariant Filter(vs[..i], tag, keep) == Ok(kept)
    {
      assert vs[..i + 1][..i] == vs[..i];
      var b := Tagged(vs[i], tag);
      if b.Err? {
        SelectErrPersists(TagTest(tag), vs, keep, i + 1);
        return Err(b.error);
      }
      if b.value == keep {
        kept := kept + [vs[i]];
      }
      i := i + 1;
    }
    assert vs[..i] == vs;
    r := Ok(kept);
  }

  /** Selecting succeeds iff no block raises; it keeps exactly the elements whose test is `keep`. */
  lemma {:induction false} SelectMembers(test: Value -> Result<bool>, vs: seq<Value>, keep: bool)
    ensures Select(test, vs, keep).Ok? <==> forall i :: 0 <= i < |vs| ==> test(vs[i]).Ok?
    ensures Select(test, vs, keep).Ok? ==>
      && |Select(test, vs, keep).value| <= |vs|
      && forall v :: v in Select(test, vs, keep).value <==> v in vs && test(v) == Ok(keep)
  {
    if vs != [] {
      var init := vs[..|vs| - 1];
      SelectMembers(test, init, keep);
      assert vs == init + [vs[|vs| - 1]];
      assert forall i :: 0 <= i < |init| ==> init[i] == vs[i];
    }
  }

  /** Filtering succeeds iff no block raises; it keeps exactly the views whose test is `keep`. */
  lemma FilterMembers(vs: seq<Value>, tag: Value, keep: bool)
    ensures Filter(vs, tag, keep).Ok? <==> forall i :: 0 <= i < |vs| ==> Tagged(vs[i], tag).Ok?
    ensures Filter(vs, tag, keep).Ok? ==>
      && |Filter(vs, tag, keep).value| <= |vs|
      && forall v :: v in Filter(vs, tag, keep).value <==> v in vs && Tagged(v, tag) == Ok(keep)
  {
    SelectMembers(TagTest(tag), vs, keep);
  }

  /** The kept views appear in their original order: the result is a subsequence. */
  predicate Subsequence(xs: seq<Value>, ys: seq<Value>)
    decreases |ys|
  {
    if xs == [] then true
    else if ys == [] then false
    else if xs[|xs| - 1] == ys[|ys| - 1] then Subsequence(xs[..|xs| - 1], ys[..|ys| - 1])
    else Subsequence(xs, ys[..|ys| - 1])
  }

  /** Dropping the last element of the shorter sequence keeps it a subsequence. */
  lemma {:induction false} SubsequenceDropLast(xs: seq<Value>, ys: seq<Value>)
    requires xs != [] && Subsequence(xs, ys)
    ensures Subsequence(xs[..|xs| - 1], ys)
    decreases |ys|, 0
  {
    var init := xs[..|xs| - 1];
    if xs[|xs| - 1] == ys[|ys| - 1] {
      SubsequenceWeaken(init, ys[..|ys| - 1], ys[|ys| - 1]);
    } else {
      SubsequenceDropLast(xs, ys[..|ys| - 1]);
      SubsequenceWeaken(init, ys[..|ys| - 1], ys[|ys| - 1]);
    }
    assert ys[..|ys| - 1] + [ys[|ys| - 1]] == ys;
  }

  /** Extending the longer sequence keeps a subsequence. */
  lemma {:induction false} SubsequenceWeaken(xs: seq<Value>, ys: seq<Value>, y: Value)
    requires Subsequence(xs, ys)
    ensures Subsequence(xs, ys + [y])
    decreases |ys|, 1
  {
    assert (ys + [y])[..|ys|] == ys;
    if xs != [] && xs[|xs| - 1] == y {
      SubsequenceDropLast(xs, ys);
    }
  }

  lemma {:induction false} SelectOrdered(test: Value -> Result<bool>, vs: seq<Value>, keep: bool)
    requires Select(test, vs, keep).Ok?
    ensures Subsequence(Select(test, vs, keep).value, vs)
  {
    if vs != [] {
      var init := vs[..|vs| - 1];
      var last := vs[|vs| - 1];
      SelectOrdered(test, init, keep);
      var kept := Select(test, init, keep).value;
      assert vs[..|vs| - 1] == init;
      if test(last) == Ok(keep) {
        assert (kept + [last])[..|kept|] == kept;
      } else {
        SubsequenceWeaken(kept, init, last);
        assert init + [last] == vs;
      }
    }
  }

  lemma FilterOrdered(vs: seq<Value>, tag: Value, keep: bool)
    requires Filter(vs, tag, keep).Ok?
    ensures Subsequence(Filter(vs, tag, keep).value, vs)
  {
    SelectOrdered(TagTest(tag), vs, keep);
  }

  /** A view without tags fails the `:tags` filter and survives the `:ignore` filter. */
  lemma UntaggedView(v: Value, tag: Value)
    requires v.Hash? && Str("tags") !in Keys(v.entries)
    ensures Tagged(v, tag) == Ok(false)
    ensures Filter([v], tag, true) == Ok([]) && Filter([v], tag, false) == Ok([v])
  {
    assert [v][..0] == [];
    assert Tagged(v, tag) == Ok(false);
    assert TagTest(tag)(v) == Ok(false);
    assert Select(TagTest(tag), [v][..0], false) == Ok([]);
    assert Select(TagTest(tag), [v][..0], true) == Ok([]);
    assert [] + [v] == [v];
  }

  /** `find_sets` after its GET: select by `tags`, then drop by `ignore`, each only when given. */
  function FindSetsFiltering(results: Value, tags: Value, ignore: Value): Result<Value> {
    if !Truthy(tags) && !Truthy(ignore) then Ok(results)
    else if !results.Arr? then Err(NoMethodError)
    else
      var selected := if Truthy(tags) then Filter(results.elems, tags, true) else Ok(results.elems);
      match selected
      case Err(e) => Err(e)
      case Ok(vs) =>
        if !Truthy(ignore) then Ok(Arr(vs))
        else match Filter(vs, ignore, false)
          case Err(e) => Err(e)
          case Ok(ws) => Ok(Arr(ws))
  }

  /** With both filters the result holds exactly the views tagged `tags` and not tagged `ignore`. */
  lemma FindSetsBothFilters(vs: seq<Value>, tags: Value, ignore: Value)
    requires Truthy(tags) && Truthy(ignore)
    requires FindSetsFiltering(Arr(vs), tags, ignore).Ok?
    ensures forall v :: v in FindSetsFiltering(Arr(vs), tags, ignore).value.elems <==>
      v in vs && Tagged(v, tags) == Ok(true) && Tagged(v, ignore) == Ok(false)
  {
    FilterMembers(vs, tags, true);
    var sel := Filter(vs, tags, true).value;
    FilterMembers(sel, ignore, false);
  }

  // ---------------------------------------------------------------------------
  // Link builders
  // ---------------------------------------------------------------------------

  function LinkUrlOf(host: Value, category: Value, name: Value, id: Value): string {
    ToS(host) + "/" + ToS(category) + "/" + ToS(name) + "/" + ToS(id)
  }

  lemma Split(a: string, b: string)
    ensures (a + b)[..|a|] == a && (a + b)[|a|..] == b
  {
  }

  lemma LinkParts(h: string, c: string, n: string, i: string)
    ensures var u := h + "/" + c + "/" + n + "/" + i;
      && u[..|h|] == h && u[|h|..|h| + |c| + 2] == "/" + c + "/"
      && u[|u| - |i| - 1..] == "/" + i
  {
    var u := h + "/" + c + "/" + n + "/" + i;
    var m := "/" + c + "/";
    assert u == h + (m + (n + "/" + i));
    Split(h, m + (n + "/" + i));
    Split(m, n + "/" + i);
    assert u == (h + "/" + c + "/" + n) + ("/" + i);
    Split(h + "/" + c + "/" + n, "/" + i);
  }

  /** The long link starts with the host and the category segment and ends with the id as its last segment. */
  lemma LinkUrlParts(host: Value, category: Value, name: Value, id: Value)
    ensures var u := LinkUrlOf(host, category, name, id);
      && u[..|ToS(host)|] == ToS(host)
      && u[|ToS(host)|..|ToS(host)| + |ToS(category)| + 2] == "/" + ToS(category) + "/"
      && u[|u| - |ToS(id)| - 1..] == "/" + ToS(id)
  {
    LinkParts(ToS(host), ToS(category), ToS(name), ToS(id));
  }

  /** `short_url`: host, `/d/`, id. */
  function ShortUrlOf(host: Value, id: Value): (u: string)
    ensures |u| == |ToS(host)| + 3 + |ToS(id)|
    ensures u[..|ToS(host)|] == ToS(host) && u[|ToS(host)|..|ToS(host)| + 3] == "/d/"
    ensures u[|ToS(host)| + 3..] == ToS(id)
  {
    ToS(host) + "/d/" + ToS(id)
  }

  function WidgetUrl(host: Value, id: Value): string {
    ToS(host) + "/widgets/" + ToS(id)
  }

  function EmbedCodeOf(host: Value, id: Value, width: Value, height: Value): string {
    "<iframe " + ("width=\"" + ToS(width) + "px\" height=\"" + ToS(height) + "px\" src=\"")
      + WidgetUrl(host, id) + "\" frameborder=\"0\" scrolling=\"no\"></iframe>"
  }

  /** In `p + x + w + b` the string `p` comes first and `w` occurs right after `p + x`. */
  lemma Framed(p: string, x: string, w: string, b: string)
    ensures (p + x + w + b)[..|p|] == p
    ensures OccursAt(w, p + x + w + b, |p + x|)
  {
    assert (p + x + w + b)[|p + x|..|p + x| + |w|] == w;
    assert p + x + w + b == p + (x + w + b);
  }

  /** The embed code is an iframe whose source is the dataset's widget URL. */
  lemma EmbedCodeFrame(host: Value, id: Value, width: Value, height: Value)
    ensures IsSubstring(WidgetUrl(host, id), EmbedCodeOf(host, id, width, height))
    ensures EmbedCodeOf(host, id, width, height)[..8] == "<iframe "
  {
    var x := "width=\"" + ToS(width) + "px\" height=\"" + ToS(height) + "px\" src=\"";
    var w := WidgetUrl(host, id);
    var b := "\" frameborder=\"0\" scrolling=\"no\"></iframe>";
    assert EmbedCodeOf(host, id, width, height) == "<iframe " + x + w + b;
    Framed("<iframe ", x, w, b);
  }

  // ---------------------------------------------------------------------------
  // The Dataset object
  // ---------------------------------------------------------------------------

  /** The instance variables the methods change. */
  datatype Snapshot = Snapshot(id: Value, data: Value, error: Value, response: Value, delayed: Option<seq<Value>>)

  /** What `create` does with the parsed answer to its POST. */
  function CreateEffect(f: Snapshot, response: Value): (Snapshot, Result<Value>) {
    match Index(response, "id")
    case Err(e) => (f, Err(e))
    case Ok(newId) =>
      if newId.Nil? then (f.(error := IndexOrNil(response, "code")), Ok(Bool(false)))
      else (f.(data := response, id := newId), Ok(newId))
  }

  function IndexOrNil(v: Value, key: string): Value {
    match Index(v, key)
    case Ok(x) => x
    case Err(_) => Nil
  }

  /** `attach` */
  function AttachEffect(f: Snapshot, newId: Value): Snapshot {
    if IsId(newId) then f.(id := newId) else f
  }

  /** `add_row_delayed`: the new fields and the method's value. */
  function DelayEffect(f: Snapshot, body: string): (Snapshot, Value) {
    if !IsId(f.id) then (f, Nil)
    else
      var q := (if f.delayed.Some? then f.delayed.value else []) + [DelayedRecord(f.id, body)];
      (f.(delayed := Some(q)), Arr(q))
  }

  /** `create` stores the id and the answer when the answer has an id, and only the error code otherwise. */
  lemma CreateOutcome(f: Snapshot, response: Value)
    requires response.Hash?
    ensures var (f', r) := CreateEffect(f, response);
      var newId := Fetch(response.entries, Str("id"));
      && (newId.Nil? ==> r == Ok(Bool(false)) && f' == f.(error := Fetch(response.entries, Str("code"))))
      && (!newId.Nil? ==> r == Ok(newId) && f' == f.(id := newId, data := response))
  {
  }

  /** After `attach(x)`, the dataset is attached to `x` when `x` is an id, and otherwise as before. */
  lemma AttachOutcome(f: Snapshot, x: Value)
    ensures IsId(x) ==> AttachEffect(f, x).id == x && IsId(AttachEffect(f, x).id)
    ensures !IsId(x) ==> AttachEffect(f, x) == f
    ensures AttachEffect(f, x).(id := f.id) == f
  {
  }

  /** Unattached, nothing changes; attached, exactly one row record is appended, after creating the list if needed. */
  lemma DelayOutcome(f: Snapshot, body: string)
    ensures !IsId(f.id) ==> DelayEffect(f, body) == (f, Nil)
    ensures IsId(f.id) ==>
      var old_ := if f.delayed.Some? then f.delayed.value else [];
      var q := DelayEffect(f, body).0.delayed;
      && q.Some? && |q.value| == |old_| + 1 && q.value[..|old_|] == old_
      && q.value[|old_|] == DelayedRecord(f.id, body)
      && DelayEffect(f, body).0.(delayed := f.delayed) == f
  {
    if IsId(f.id) {
      var old_ := if f.delayed.Some? then f.delayed.value else [];
      assert (old_ + [DelayedRecord(f.id, body)])[..|old_|] == old_;
    }
  }

  class Dataset {
    var id: Value
    var data: Value
    var error: Value
    var response: Value
    var delayed: Option<seq<Value>>
    const transport: Transport
    const toJson: Value -> string
    /** `SocrataAPI#check_error` applied to the stored response. */
    const checkError: Value -> Result<Value>
    /** `@config['server']['public_host']`, `@config['dataset']['category']`, `@config['credentials']['user']` */
    const publicHost: Value
    const category: Value
    const user: Value

    ghost function Fields(): Snapshot
      reads this
    {
      Snapshot(id, data, error, response, delayed)
    }

    ghost predicate Valid()
      reads this, transport
    {
      transport.Valid()
    }

    constructor (transport: Transport, toJson: Value -> string, checkError: Value -> Result<Value>,
                 publicHost: Value, category: Value, user: Value)
      requires transport.Valid()
      ensures Valid() && Fields() == Snapshot(Nil, Nil, Nil, Nil, None)
      ensures this.transport == transport && this.toJson == toJson && this.checkError == checkError
      ensures this.publicHost == publicHost && this.category == category && this.user == user
    {
      this.transport := transport;
      this.toJson := toJson;
      this.checkError := checkError;
      this.publicHost := publicHost;
      this.category := category;
      this.user := user;
      id, data, error, response, delayed := Nil, Nil, Nil, Nil, None;
    }

    /** `attached?` */
    predicate Attached()
      reads this
    {
      IsId(id)
    }

    method Attach(newId: Value)
      modifies this
      ensures Fields() == AttachEffect(old(Fields()), newId)
    {
      if IsId(newId) {
        id := newId;
      }
    }

    method Create(title: Value, description: Value, tags: seq<Value>, public: Value) returns (r: Result<Value>)
      requires Valid()
      modifies this, transport
      ensures Valid()
      ensures transport.sent == old(transport.sent) + [HttpCall(POST, "/views.json", BodyOf(toJson(Hash(CreatePayload(title, description, tags, public)))))]
      ensures (Fields(), r) == CreateEffect(old(Fields()), transport.reply(|old(transport.sent)|, transport.sent[|old(transport.sent)|]))
    {
      var reply := transport.Send(HttpCall(POST, "/views.json", BodyOf(toJson(Hash(CreatePayload(title, description, tags, public))))));
      var newId := Index(reply, "id");
      if newId.Err? {
        return Err(newId.error);
      }
      if newId.value.Nil? {
        error := IndexOrNil(reply, "code");
        return Ok(Bool(false));
      }
      data := reply;
      id := newId.value;
      r := Ok(newId.value);
    }

    /** `delete` */
    method Delete() returns (r: Value)
      requires Valid()
      modifies transport
      ensures Valid()
      ensures transport.sent == old(transport.sent) + [HttpCall(DELETE, "/views.json?id=" + ToS(id) + "&method=delete", [])]
      ensures r == transport.reply(|old(transport.sent)|, transport.sent[|old(transport.sent)|])
    {
      r := transport.Send(HttpCall(DELETE, "/views.json?id=" + ToS(id) + "&method=delete", []));
    }

    /** `add_row`: false and no request when unattached. */
    method AddRow(row: Value) returns (r: Result<Value>)
      requires Valid()
      modifies this, transport
      ensures Valid()
      ensures !old(Attached()) ==> r == Ok(Bool(false)) && Fields() == old(Fields()) && transport.sent == old(transport.sent)
      ensures old(Attached()) ==>
        && transport.sent == old(transport.sent) + [HttpCall(POST, RowsPath(id), BodyOf(toJson(row)))]
        && Fields() == old(Fields()).(response := transport.reply(|old(transport.sent)|, transport.sent[|old(transport.sent)|]))
        && r == checkError(response)
    {
      if !Attached() {
        return Ok(Bool(false));
      }
      response := transport.Send(HttpCall(POST, RowsPath(id), BodyOf(toJson(row))));
      r := checkError(response);
    }

    /** `add_row_delayed` */
    method AddRowDelayed(row: Value) returns (r: Value)
      modifies this
      ensures (Fields(), r) == DelayEffect(old(Fields()), toJson(row))
    {
      if !Attached() {
        return Nil;
      }
      if delayed.None? {
        delayed := Some([]);
      }
      delayed := Some(delayed.value + [DelayedRecord(id, toJson(row))]);
      r := Arr(delayed.value);
    }

    /** `add_column`: false and no request when unattached. */
    method AddColumn(name: Value, description: Value, dataType: Value, hidden: Value, rich: Value, width: Value)
      returns (r: Result<Value>)
      requires Valid()
      modifies this, transport
      ensures Valid()
      ensures !old(Attached()) ==> r == Ok(Bool(false)) && Fields() == old(Fields()) && transport.sent == old(transport.sent)
      ensures old(Attached()) ==>
        && transport.sent == old(transport.sent)
             + [HttpCall(POST, "/views/" + ToS(id) + "/columns.json",
                  BodyOf(toJson(Hash(ColumnPayload(name, description, dataType, hidden, rich, width)))))]
        && Fields() == old(Fields()).(response := transport.reply(|old(transport.sent)|, transport.sent[|old(transport.sent)|]))
        && r == checkError(response)
    {
      if !Attached() {
        return Ok(Bool(false));
      }
      var payload := ColumnPayload(name, description, dataType, hidden, rich, width);
      response := transport.Send(HttpCall(POST, "/views/" + ToS(id) + "/columns.json", BodyOf(toJson(Hash(payload)))));
      r := checkError(response);
    }

    /** `find_sets`: a truthy `username` option overrides the configured user; nil options are not given. */
    method FindSets(username: Value, tags: Value, ignore: Value) returns (r: Result<Value>)
      requires Valid()
      modifies transport
      ensures Valid()
      ensures transport.sent == old(transport.sent)
        + [HttpCall(GET, "/users/" + ToS(if Truthy(username) then username else user) + "/views", [])]
      ensures r == FindSetsFiltering(transport.reply(|old(transport.sent)|, transport.sent[|old(transport.sent)|]), tags, ignore)
    {
      var who := if Truthy(username) then username else user;
      var results := transport.Send(HttpCall(GET, "/users/" + ToS(who) + "/views", []));
      if !Truthy(tags) && !Truthy(ignore) {
        return Ok(results);
      }
      if !results.Arr? {
        return Err(NoMethodError);
      }
      var vs := results.elems;
      if Truthy(tags) {
        var selected := FilterViews(vs, tags, true);
        if selected.Err? {
          return Err(selected.error);
        }
        vs := selected.value;
      }
      if Truthy(ignore) {
        var remaining := FilterViews(vs, ignore, false);
        if remaining.Err? {
          return Err(remaining.error);
        }
        vs := remaining.value;
      }
      r := Ok(Arr(vs));
    }

    /** `set_public`: nil and no request when unattached; otherwise the permission 'public' or 'private'. */
    method SetPublic(public: Value) returns (r: Result<Value>)
      requires Valid()
      modifies this, transport
      ensures Valid()
      ensures !old(Attached()) ==> r == Ok(Nil) && Fields() == old(Fields()) && transport.sent == old(transport.sent)
      ensures old(Attached()) ==>
        && transport.sent == old(transport.sent)
             + [HttpCall(GET, "/views/" + ToS(id) + "?method=setPermission&value=" + (if Truthy(public) then "public" else "private"), [])]
        && Fields() == old(Fields()).(response := transport.reply(|old(transport.sent)|, transport.sent[|old(transport.sent)|]))
        && r == checkError(response)
    {
      if !Attached() {
        return Ok(Nil);
      }
      var param := if Truthy(public) then "public" else "private";
      response := transport.Send(HttpCall(GET, "/views/" + ToS(id) + "?method=setPermission&value=" + param, []));
      r := checkError(response);
    }

    /** `put`: nothing when unattached; otherwise the body is PUT to the view and the answer stored. */
    method Put(body: Value)
      requires Valid()
      modifies this, transport
      ensures Valid()
      ensures !old(Attached()) ==> Fields() == old(Fields()) && transport.sent == old(transport.sent)
      ensures old(Attached()) ==>
        && transport.sent == old(transport.sent) + [HttpCall(PUT, "/views/" + ToS(id), BodyOf(toJson(body)))]
        && Fields() == old(Fields()).(response := transport.reply(|old(transport.sent)|, transport.sent[|old(transport.sent)|]))
    {
      if !Attached() {
        return;
      }
      response := transport.Send(HttpCall(PUT, "/views/" + ToS(id), BodyOf(toJson(body))));
    }

    method SetAttribution(attribution: Value, link: Value)
      requires Valid()
      modifies this, transport
      ensures Valid()
      ensures !old(Attached()) ==> Fields() == old(Fields()) && transport.sent == old(transport.sent)
      ensures old(Attached()) ==> (transport.sent == old(transport.sent)
        + [HttpCall(PUT, "/views/" + ToS(id), BodyOf(toJson(Hash([(Sym("attributionLink"), link), (Sym("attribution"), attribution)]))))])
    {
      Put(Hash([(Sym("attributionLink"), link), (Sym("attribution"), attribution)]));
    }

    method SetDescription(description: Value)
      requires Valid()
      modifies this, transport
      ensures Valid()
      ensures !old(Attached()) ==> Fields() == old(Fields()) && transport.sent == old(transport.sent)
      ensures old(Attached()) ==> (transport.sent == old(transport.sent)
        + [HttpCall(PUT, "/views/" + ToS(id), BodyOf(toJson(Hash([(Sym("description"), Str(ToS(description)))]))))])
    {
      Put(Hash([(Sym("description"), Str(ToS(description)))]));
    }

    method SetTags(tags: Value)
      requires Valid()
      modifies this, transport
      ensures Valid()
      ensures !old(Attached()) ==> Fields() == old(Fields()) && transport.sent == old(transport.sent)
      ensures old(Attached()) ==> (transport.sent == old(transport.sent)
        + [HttpCall(PUT, "/views/" + ToS(id), BodyOf(toJson(Hash([(Sym("tags"), tags)]))))])
    {
      Put(Hash([(Sym("tags"), tags)]));
    }

    /** `link_url`: the category and name options fall back to the configured category and 'Socrata-Dataset'. */
    function LinkUrl(categoryOption: Value, nameOption: Value): string
      reads this
    {
      LinkUrlOf(publicHost, if Truthy(categoryOption) then categoryOption else category,
        if Truthy(nameOption) then nameOption else Str("Socrata-Dataset"), id)
    }

    function ShortUrl(): string
      reads this
    {
      ShortUrlOf(publicHost, id)
    }

    /** `embed_code`; its defaults are a width of 500 and a height of 425. */
    function EmbedCode(width: Value, height: Value): string
      reads this
    {
      EmbedCodeOf(publicHost, id, width, height)
    }
  }
}
