/**
 * The update check of `operations/update.rs`: every app and tool of the
 * library whose last check is less than a day old is skipped; the others
 * get a conditional HEAD request to their url, and the response decides
 * their new update status. An error of any item aborts the pass before the
 * library is saved.
 *
 * The request itself is an oracle (`fetch`), and so is time parsing:
 * `rfc3339` and `rfc2822` map a text to an instant in seconds, or `None`
 * when it does not parse.
 */
module UpdateCheck {
  import opened Base
  import opened Text

  /** The time after which an item is checked again: 24 hours, in seconds. */
  const Day: int := 24 * 60 * 60

  datatype UpdateStatus = UpdateStatus(
    last_check: string,
    last_final_url: string,
    last_etag: string,
    last_modify: string,
    update_available: bool)

  /** An app or a tool of the library, as far as the update check is concerned. */
  datatype Item = Item(url: string, update_status: UpdateStatus)

  /** A parser of date texts: the instant in seconds, or `None`. */
  type Parser = string -> Option<int>

  // ---------------------------------------------------------------------
  // should_skip_check
  // ---------------------------------------------------------------------

  /** `should_skip_check`: the last check parses as RFC 3339 and lies less than 24 hours before `now`. */
  function ShouldSkipCheck(status: UpdateStatus, now: int, rfc3339: Parser): bool {
    if status.last_check == "" then false
    else
      match rfc3339(status.last_check)
      case Some(lastCheck) => now - lastCheck < Day
      case None => false
  }

  // ---------------------------------------------------------------------
  // check_single_item_update
  // ---------------------------------------------------------------------

  /** The HEAD request: its url and the conditional headers, present only when non-empty. */
  datatype HeadRequest = HeadRequest(url: string, if_none_match: Option<string>, if_modified_since: Option<string>)

  function RequestFor(originalUrl: string, status: UpdateStatus): HeadRequest {
    HeadRequest(
      if status.last_final_url == "" then originalUrl else status.last_final_url,
      if status.last_etag == "" then None else Some(status.last_etag),
      if status.last_modify == "" then None else Some(status.last_modify))
  }

  /**
   * The response: the status code, the final url after redirects, and the
   * `etag` and `last-modified` headers ("" when absent or not text).
   */
  datatype Response = Response(status_code: int, final_url: string, etag: string, last_modified: string)

  /** A date text parsed as RFC 2822, or else as RFC 3339. */
  function ParseDate(s: string, rfc2822: Parser, rfc3339: Parser): Option<int> {
    if rfc2822(s).Some? then rfc2822(s) else rfc3339(s)
  }

  /** `is_newer_timestamp`. */
  function IsNewerTimestamp(newTime: string, oldTime: string, rfc2822: Parser, rfc3339: Parser): bool {
    if oldTime == "" then newTime != ""
    else
      var newParsed := ParseDate(newTime, rfc2822, rfc3339);
      var oldParsed := ParseDate(oldTime, rfc2822, rfc3339);
      newParsed.Some? && oldParsed.Some? && newParsed.value > oldParsed.value
  }

  /**
   * Against an empty old value, a text is newer iff it is not empty;
   * otherwise it is newer only when both texts parse, and then iff its
   * instant is later.
   */
  lemma IsNewerTimestampSpec(newTime: string, oldTime: string, rfc2822: Parser, rfc3339: Parser)
    ensures oldTime == "" ==> (IsNewerTimestamp(newTime, oldTime, rfc2822, rfc3339) <==> newTime != "")
    ensures oldTime != "" && (ParseDate(newTime, rfc2822, rfc3339).None? || ParseDate(oldTime, rfc2822, rfc3339).None?)
      ==> !IsNewerTimestamp(newTime, oldTime, rfc2822, rfc3339)
  {
  }

  /** The answer to an item's check, from the response to its request. */
  function NextStatus(current: UpdateStatus, response: Response, now: string, rfc2822: Parser, rfc3339: Parser)
    : Result<UpdateStatus>
  {
    var status := current.(last_check := now, last_final_url := response.final_url);
    var code := response.status_code;
    if code == 304 then Ok(status.(update_available := false))
    else if code == 200 then
      if current.last_etag == "" && current.last_modify == "" then
        Ok(status.(last_etag := response.etag, last_modify := response.last_modified, update_available := false))
      else
        var etagChanged := response.etag != "" && response.etag != current.last_etag;
        var modifiedChanged := response.last_modified != "" && response.last_modified != current.last_modify
          && IsNewerTimestamp(response.last_modified, current.last_modify, rfc2822, rfc3339);
        Ok(status.(update_available := etagChanged || modifiedChanged))
    else if 400 <= code <= 599 then Err("HTTP error: " + IntToString(code))
    else Ok(status.(update_available := false))
  }

  /**
   * Error codes 400 to 599 fail the item; every other response records the
   * check time and the final url. The stored etag and last-modified change
   * only on a first successful check (both empty), which records them and
   * reports no update. An update is reported only on a later 200, and
   * exactly when the etag changed or the last-modified date moved forward.
   */
  lemma NextStatusSpec(current: UpdateStatus, response: Response, now: string, rfc2822: Parser, rfc3339: Parser)
    ensures var r := NextStatus(current, response, now, rfc2822, rfc3339);
      var code := response.status_code;
      var first := current.last_etag == "" && current.last_modify == "";
      && (r.Err? <==> 400 <= code <= 599)
      && (r.Ok? ==> r.value.last_check == now && r.value.last_final_url == response.final_url)
      && (r.Ok? && !(code == 200 && first) ==>
            r.value.last_etag == current.last_etag && r.value.last_modify == current.last_modify)
      && (r.Ok? && code == 200 && first ==>
            r.value.last_etag == response.etag && r.value.last_modify == response.last_modified)
      && (r.Ok? && code == 200 && !first ==>
            (r.value.update_available <==>
               ((response.etag != "" && response.etag != current.last_etag)
                || (response.last_modified != "" && response.last_modified != current.last_modify
                    && IsNewerTimestamp(response.last_modified, current.last_modify, rfc2822, rfc3339)))))
      && (r.Ok? && r.value.update_available ==> code == 200 && !first)
  {
  }

  /**
   * An item never checked, or whose last check does not parse, is checked.
   * After a successful check stamped `nowText` (the instant `t`), the item
   * is skipped by every pass less than a day after `t` and checked again
   * by every later one.
   */
  lemma CheckRestsForADay(current: UpdateStatus, response: Response, nowText: string, t: int, later: int,
                          rfc2822: Parser, rfc3339: Parser)
    ensures current.last_check == "" || rfc3339(current.last_check).None? ==>
      !ShouldSkipCheck(current, later, rfc3339)
    ensures var r := NextStatus(current, response, nowText, rfc2822, rfc3339);
      r.Ok? && nowText != "" && rfc3339(nowText) == Some(t) ==>
        (ShouldSkipCheck(r.value, later, rfc3339) <==> later - t < Day)
  {
  }

  /**
   * The request that follows a successful check goes to the final url the
   * response reported (the original url when it reported none). A first
   * 200 makes the next request conditional on the etag and last-modified
   * date the server sent, each present exactly when the server sent it;
   * every other answer leaves the conditional headers as they were.
   */
  lemma NextRequestFollowsCheck(url: string, current: UpdateStatus, response: Response, nowText: string,
                                rfc2822: Parser, rfc3339: Parser)
    ensures var r := NextStatus(current, response, nowText, rfc2822, rfc3339);
      r.Ok? ==> RequestFor(url, r.value).url == (if response.final_url == "" then url else response.final_url)
    ensures var r := NextStatus(current, response, nowText, rfc2822, rfc3339);
      var first := current.last_etag == "" && current.last_modify == "";
      r.Ok? && response.status_code == 200 && first ==>
        && (RequestFor(url, r.value).if_none_match.Some? <==> response.etag != "")
        && (response.etag != "" ==> RequestFor(url, r.value).if_none_match == Some(response.etag))
        && (RequestFor(url, r.value).if_modified_since.Some? <==> response.last_modified != "")
        && (response.last_modified != "" ==> RequestFor(url, r.value).if_modified_since == Some(response.last_modified))
    ensures var r := NextStatus(current, response, nowText, rfc2822, rfc3339);
      var first := current.last_etag == "" && current.last_modify == "";
      r.Ok? && !(response.status_code == 200 && first) ==>
        && RequestFor(url, r.value).if_none_match == RequestFor(url, current).if_none_match
        && RequestFor(url, r.value).if_modified_since == RequestFor(url, current).if_modified_since
  {
  }

  // ---------------------------------------------------------------------
  // check_for_updates
  // ---------------------------------------------------------------------

  /** The oracle answering a HEAD request, or failing with a message. */
  type Fetch = HeadRequest -> Result<Response>

  /** One item of the pass: skipped, or checked with the response to its request. */
  function CheckItem(item: Item, now: int, nowText: string, fetch: Fetch, rfc2822: Parser, rfc3339: Parser)
    : Result<Item>
  {
    if ShouldSkipCheck(item.update_status, now, rfc3339) then Ok(item)
    else
      match fetch(RequestFor(item.url, item.update_status))
      case Err(e) => Err(e)
      case Ok(response) =>
        match NextStatus(item.update_status, response, nowText, rfc2822, rfc3339)
        case Err(e) => Err(e)
        case Ok(status) => Ok(item.(update_status := status))
  }

  /** The pass over a list: the checked items, or the first error. */
  function CheckItems(items: seq<Item>, now: int, nowText: string, fetch: Fetch, rfc2822: Parser, rfc3339: Parser)
    : Result<seq<Item>>
  {
    if items == [] then Ok([])
    else
      match CheckItem(items[0], now, nowText, fetch, rfc2822, rfc3339)
      case Err(e) => Err(e)
      case Ok(item) =>
        match CheckItems(items[1..], now, nowText, fetch, rfc2822, rfc3339)
        case Err(e) => Err(e)
        case Ok(rest) => Ok([item] + rest)
  }

  /**
   * The pass succeeds iff every item does; then each item is replaced by its
   * checked version, so skipped items keep their status and the url of no
   * item changes. A failure is the error of the first failing item.
   */
  lemma {:induction false} CheckItemsSpec(items: seq<Item>, now: int, nowText: string, fetch: Fetch,
                                          rfc2822: Parser, rfc3339: Parser)
    ensures var r := CheckItems(items, now, nowText, fetch, rfc2822, rfc3339);
      && (r.Ok? <==> forall k :: 0 <= k < |items| ==> CheckItem(items[k], now, nowText, fetch, rfc2822, rfc3339).Ok?)
      && (r.Ok? ==>
            (&& |r.value| == |items|
             && forall k :: 0 <= k < |items| ==>
                  (&& CheckItem(items[k], now, nowText, fetch, rfc2822, rfc3339) == Ok(r.value[k])
                   && r.value[k].url == items[k].url
                   && (ShouldSkipCheck(items[k].update_status, now, rfc3339) ==> r.value[k] == items[k]))))
      && (r.Err? ==>
            exists k :: FirstFailure(items, k, now, nowText, fetch, rfc2822, rfc3339, r.error))
  {
    if items != [] {
      CheckItemsSpec(items[1..], now, nowText, fetch, rfc2822, rfc3339);
      var r := CheckItems(items, now, nowText, fetch, rfc2822, rfc3339);
      var head := CheckItem(items[0], now, nowText, fetch, rfc2822, rfc3339);
      var tail := CheckItems(items[1..], now, nowText, fetch, rfc2822, rfc3339);
      forall k | 1 <= k < |items| ensures items[k] == items[1..][k - 1] {
      }
      if head.Err? {
        assert FirstFailure(items, 0, now, nowText, fetch, rfc2822, rfc3339, r.error);
      } else if tail.Err? {
        var k :| FirstFailure(items[1..], k, now, nowText, fetch, rfc2822, rfc3339, tail.error);
        assert FirstFailure(items, k + 1, now, nowText, fetch, rfc2822, rfc3339, r.error);
      }
    }
  }

  /** Item `k` is the first to fail, with `error`. */
  predicate FirstFailure(items: seq<Item>, k: int, now: int, nowText: string, fetch: Fetch,
                         rfc2822: Parser, rfc3339: Parser, error: string) {
    && 0 <= k < |items|
    && CheckItem(items[k], now, nowText, fetch, rfc2822, rfc3339) == Err(error)
    && forall j :: 0 <= j < k ==> CheckItem(items[j], now, nowText, fetch, rfc2822, rfc3339).Ok?
  }

  /** The pass over the items from `i` on, after the first item of them was checked. */
  lemma CheckStep(done: seq<Item>, items: seq<Item>, i: nat, now: int, nowText: string, fetch: Fetch,
                  rfc2822: Parser, rfc3339: Parser)
    requires i < |items|
    ensures var head := CheckItem(items[i], now, nowText, fetch, rfc2822, rfc3339);
      var rest := CheckItems(items[i..], now, nowText, fetch, rfc2822, rfc3339);
      && (head.Err? ==> rest == Err(head.error))
      && (head.Ok? ==>
            Prepend(done, rest)
            == Prepend(done + [head.value], CheckItems(items[i + 1..], now, nowText, fetch, rfc2822, rfc3339)))
  {
    assert items[i..][1..] == items[i + 1..];
    var head := CheckItem(items[i], now, nowText, fetch, rfc2822, rfc3339);
    var tail := CheckItems(items[i + 1..], now, nowText, fetch, rfc2822, rfc3339);
    if head.Ok? && tail.Ok? {
      assert done + ([head.value] + tail.value) == done + [head.value] + tail.value;
    }
  }

  /** One loop of `check_for_updates`: the items in order, stopping at the first error. */
  method CheckAll(items: seq<Item>, now: int, nowText: string, fetch: Fetch, rfc2822: Parser, rfc3339: Parser)
    returns (r: Result<seq<Item>>)
    ensures r == CheckItems(items, now, nowText, fetch, rfc2822, rfc3339)
  {
    var checked: seq<Item> := items;
    var i := 0;
    assert items[0..] == items;
    assert Prepend([], CheckItems(items, now, nowText, fetch, rfc2822, rfc3339))
        == CheckItems(items, now, nowText, fetch, rfc2822, rfc3339) by {
      var all := CheckItems(items, now, nowText, fetch, rfc2822, rfc3339);
      if all.Ok? {
        assert [] + all.value == all.value;
      }
    }
    while i < |items|
      invariant 0 <= i <= |items|
      invariant |checked| == |items| && checked[i..] == items[i..]
      invariant CheckItems(items, now, nowText, fetch, rfc2822, rfc3339)
             == Prepend(checked[..i], CheckItems(items[i..], now, nowText, fetch, rfc2822, rfc3339))
    {
      CheckStep(checked[..i], items, i, now, nowText, fetch, rfc2822, rfc3339);
      var item := checked[i];
      if ShouldSkipCheck(item.update_status, now, rfc3339) {
        assert checked[..i + 1] == checked[..i] + [item];
        i := i + 1;
        continue;
      }
      var response := fetch(RequestFor(item.url, item.update_status));
      if response.Err? {
        return Err(response.error);
      }
      var status := NextStatus(item.update_status, response.value, nowText, rfc2822, rfc3339);
      if status.Err? {
        return Err(status.error);
      }
      assert checked[..i] + [item.(update_status := status.value)] == checked[i := item.(update_status := status.value)][..i + 1];
      checked := checked[i := item.(update_status := status.value)];
      i := i + 1;
    }
    assert checked[..i] == checked;
    assert items[i..] == [];
    assert checked + [] == checked;
    return Ok(checked);
  }

  /** A successful rest of the pass, after the items already checked. */
  function Prepend(done: seq<Item>, rest: Result<seq<Item>>): Result<seq<Item>> {
    match rest
    case Ok(items) => Ok(done + items)
    case Err(e) => Err(e)
  }

  /** The apps and tools of the library. */
  class UpdateLibrary {
    var apps: seq<Item>
    var tools: seq<Item>

    constructor (apps: seq<Item>, tools: seq<Item>)
      ensures this.apps == apps && this.tools == tools
    {
      this.apps := apps;
      this.tools := tools;
    }

    /**
     * `check_for_updates`: checks the apps, then the tools, and saves both
     * only when every item succeeded; `now` and `nowText` are the time of
     * the pass as an instant and as RFC 3339 text.
     */
    method CheckForUpdates(now: int, nowText: string, fetch: Fetch, rfc2822: Parser, rfc3339: Parser)
      returns (r: Result<()>)
      modifies this
      ensures var apps' := CheckItems(old(apps), now, nowText, fetch, rfc2822, rfc3339);
        var tools' := CheckItems(old(tools), now, nowText, fetch, rfc2822, rfc3339);
        && (r.Ok? <==> apps'.Ok? && tools'.Ok?)
        && (r.Ok? ==> apps == apps'.value && tools == tools'.value)
        && (r.Err? ==> apps == old(apps) && tools == old(tools))
    {
      var apps' := CheckAll(apps, now, nowText, fetch, rfc2822, rfc3339);
      if apps'.Err? {
        return Err(apps'.error);
      }
      var tools' := CheckAll(tools, now, nowText, fetch, rfc2822, rfc3339);
      if tools'.Err? {
        return Err(tools'.error);
      }
      apps, tools := apps'.value, tools'.value;
      r := Ok(());
    }
  }
}
