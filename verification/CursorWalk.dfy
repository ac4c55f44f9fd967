/** Clients that follow `nextCursor`, the id of the last row shown, through any listing. */
module CursorWalk {
  import opened Wrappers

  datatype Answer<T> = BadCursor | Rows(rows: seq<T>, nextCursor: Option<string>)

  /** The answers a client gets from the start on; only the last may end the walk. */
  ghost predicate IsWalk<T(!new)>(fetch: Option<string> -> Answer<T>, answers: seq<Answer<T>>) {
    && answers != [] && answers[0] == fetch(None)
    && forall k :: 0 <= k < |answers| - 1 ==>
         answers[k].Rows? && answers[k].nextCursor.Some? && answers[k + 1] == fetch(answers[k].nextCursor)
  }

  /** All rows the client was shown, page after page. */
  function Shown<T>(answers: seq<Answer<T>>): seq<T> {
    if answers == [] then []
    else Shown(answers[..|answers| - 1]) + if answers[|answers| - 1].Rows? then answers[|answers| - 1].rows else []
  }

  /** The cursor of the page that starts at this position of the listing. */
  function CursorBefore<T>(all: seq<T>, idOf: T -> string, start: nat): Option<string>
    requires start <= |all|
  {
    if start == 0 then None else Some(idOf(all[start - 1]))
  }

  /** The part of the listing that one page shows, and the cursor behind it. */
  function PageAt<T>(all: seq<T>, idOf: T -> string, start: nat, limit: nat): Answer<T>
    requires start <= |all|
  {
    if start + limit < |all| then Rows(all[start..start + limit], CursorBefore(all, idOf, start + limit))
    else Rows(all[start..], None)
  }

  /** Each page starts where its cursor says and points at the next. */
  ghost predicate PagesCut<T(!new)>(all: seq<T>, idOf: T -> string, limit: nat, fetch: Option<string> -> Answer<T>) {
    forall start: nat {:trigger PageAt(all, idOf, start, limit)} :: start <= |all| ==>
      fetch(CursorBefore(all, idOf, start)) == PageAt(all, idOf, start, limit)
  }

  /** What is shown so far is a beginning of the listing, and the next cursor names its last row. */
  ghost predicate ShowsPrefix<T(!new)>(all: seq<T>, idOf: T -> string, shown: seq<T>, last: Answer<T>, requests: nat) {
    && last.Rows?
    && (last.nextCursor.None? ==> shown == all && requests <= |all| + 1)
    && (last.nextCursor.Some? ==>
          && requests <= |shown| < |all| && shown == all[..|shown|]
          && last.nextCursor == CursorBefore(all, idOf, |shown|))
  }

  lemma SliceJoins<T>(s: seq<T>, middle: nat, end: nat)
    requires middle <= end <= |s|
    ensures s[..middle] + s[middle..end] == s[..end] && s[..middle] + s[middle..] == s
  {
  }

  lemma PageExtends<T(!new)>(all: seq<T>, idOf: T -> string, start: nat, limit: nat, requests: nat)
    requires 1 <= limit && requests <= start + 1 && start <= |all|
    ensures var page := PageAt(all, idOf, start, limit);
            ShowsPrefix(all, idOf, all[..start] + page.rows, page, requests)
  {
    SliceJoins(all, start, if start + limit < |all| then start + limit else |all|);
  }

  /**
   No page of the walk is refused, what it shows is a beginning of the listing, and it ends,
   within one request more than there are rows, with the whole of it.
   */
  lemma {:induction false} WalkShowsPrefix<T(!new)>(all: seq<T>, idOf: T -> string, limit: nat,
                                                    fetch: Option<string> -> Answer<T>, answers: seq<Answer<T>>)
    requires 1 <= limit && PagesCut(all, idOf, limit, fetch) && IsWalk(fetch, answers)
    ensures ShowsPrefix(all, idOf, Shown(answers), answers[|answers| - 1], |answers|)
  {
    var n := |answers| - 1;
    if n == 0 {
      assert answers[0] == PageAt(all, idOf, 0, limit);
      assert answers[..0] == [] && all[..0] == [];
      PageExtends(all, idOf, 0, limit, 1);
    } else {
      var earlier := answers[..n];
      WalkShowsPrefix(all, idOf, limit, fetch, earlier);
      assert earlier[n - 1] == answers[n - 1];
      var start := |Shown(earlier)|;
      assert answers[n - 1 + 1] == PageAt(all, idOf, start, limit);
      PageExtends(all, idOf, start, limit, n + 1);
    }
  }
}
