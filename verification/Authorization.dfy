/** The requests to authorize a buddy: `purple_account_request_authorization`,
    the answers, and the closing of requests. */
module Authorization {
  import opened Lists
  import opened Options

  datatype Outcome = Pending | Granted | Denied | Closed

  /** What a plugin decides: grant, deny, ignore, or leave it to the user. */
  datatype Decision = Grant | Deny | Ignore | Ask

  /** `PurpleAccountRequestInfo` */
  class Info {
    const account: nat
    var uiHandle: nat
    var ref: int
    ghost var freed: nat         // how many times it was freed
    ghost var outcome: Outcome

    constructor (account: nat)
      ensures this.account == account && ref == 2 && freed == 0 && outcome == Pending
    {
      this.account, uiHandle, ref, freed, outcome := account, 0, 2, 0, Pending;
    }

    /** `purple_account_request_info_unref` */
    method Unref() returns (alive: bool)
      requires 0 < ref
      modifies this`ref, this`freed
      ensures ref == old(ref) - 1 && (alive <==> ref > 0)
      ensures freed == old(freed) + if alive then 0 else 1
    {
      ref := ref - 1;
      if ref != 0 {
        return true;
      }
      freed := freed + 1;
      return false;
    }
  }

  ghost function NotIn(closed: set<Info>): Info -> bool {
    i => i !in closed
  }

  ghost function NotOf(account: nat): Info -> bool {
    (i: Info) => i.account != account
  }

  class Requests {
    var handles: seq<Info>
    ghost var all: set<Info>     // every request that was ever shown

    /** A request is in `handles`, held once and not freed, exactly while it is pending. */
    ghost predicate Kept(i: Info)
      reads this`handles, i
    {
      if i in handles then i.ref == 1 && i.freed == 0 && i.outcome == Pending
      else i.ref == 0 && i.freed == 1 && i.outcome != Pending
    }

    /** All is well, except that the requests in `closing` have just left `handles`. */
    ghost predicate ValidBut(closing: set<Info>)
      reads this, all, handles
    {
      && NoDup(handles) && closing <= all
      && (forall i :: i in handles ==> i in all && i !in closing)
      && (forall i :: i in all && i !in closing ==> Kept(i))
      && (forall i, j :: i in handles && j in handles && i.uiHandle == j.uiHandle ==> i == j)
    }

    ghost predicate Valid()
      reads this, all, handles
    {
      ValidBut({})
    }

    constructor ()
      ensures Valid() && handles == [] && all == {}
    {
      handles, all := [], {};
    }

    /** `request_auth_cb` and `request_deny_cb`: the user answers. */
    method Answer(info: Info, grant: bool)
      requires 0 < info.ref
      modifies this`handles, info`ref, info`freed, info`outcome
      ensures handles == Minus(old(handles), info)
      ensures info.ref == old(info.ref) - 1 && info.freed == old(info.freed) + if info.ref == 0 then 1 else 0
      ensures info.outcome == if grant then Granted else Denied
    {
      handles := Minus(handles, info);
      info.outcome := if grant then Granted else Denied;
      var alive := info.Unref();
    }

    /** The user answers a request that is shown. */
    method AnswerLater(info: Info, grant: bool)
      requires Valid() && info in handles
      modifies this`handles, info`ref, info`freed, info`outcome
      ensures Valid() && handles == Minus(old(handles), info) && all == old(all)
      ensures info.freed == 1 && info.outcome == if grant then Granted else Denied
    {
      MinusIsDistinct(handles, info);
      hide NoDup, Minus;
      Answer(info, grant);
    }

    /** `purple_account_request_authorization`: `first` and `second` are what
        plugins decide. The user interface may answer before it returns; it
        returns the handle of the request. */
    method Request(account: nat, first: Decision, second: Decision, atOnce: Option<bool>, uiHandle: nat)
      returns (shown: Option<nat>, answer: Option<bool>, ghost info: Option<Info>)
      requires Valid() && first != Ignore && forall i :: i in handles ==> i.uiHandle != uiHandle
      modifies this`handles, this`all
      ensures Valid()
      ensures info.Some? <==> first == Ask && second == Ask
      ensures info.None? ==> all == old(all) && handles == old(handles) && shown == None
      ensures info.None? ==> answer == var d := if first == Ask then second else first;
                                       if d == Grant then Some(true) else if d == Deny then Some(false) else None
      ensures info.Some? ==>
        && fresh(info.value) && all == old(all) + {info.value} && answer == atOnce
        && shown == (if atOnce == None then Some(uiHandle) else None)
        && handles == (if atOnce == None then old(handles) + [info.value] else old(handles))
        && info.value.account == account && info.value.uiHandle == uiHandle
        && info.value.outcome == match atOnce case None => Pending case Some(grant) => if grant then Granted else Denied
    {
      shown, answer, info := None, None, None;
      var decision := if first == Ask then second else first;
      if decision != Ask {
        if decision != Ignore {
          answer := Some(decision == Grant);
        }
        return;
      }
      var request := new Info(account);
      if atOnce != None {
        Answer(request, atOnce.value);
        answer := atOnce;
      }
      request.uiHandle := uiHandle;
      info := Some(request);
      var alive := request.Unref();
      all := all + {request};
      if alive {
        ghost var before := handles;
        handles := handles + [request];
        assert forall i :: i in handles <==> i in before || i == request;
        shown := Some(uiHandle);
      }
    }

    /** `purple_account_request_close_info`: the request has left `handles`. */
    method CloseInfo(info: Info, ghost closing: set<Info>)
      requires ValidBut(closing) && info in closing && info.ref == 1 && info.freed == 0
      requires forall i :: i in handles ==> i.uiHandle != info.uiHandle
      modifies this`handles, (set i | i in handles), info`ref, info`freed, info`outcome
      ensures ValidBut(closing - {info}) && handles == old(handles) && all == old(all)
      ensures info.freed == 1 && info.outcome == Closed
      ensures forall i :: i in handles ==>
        i.uiHandle == old(i.uiHandle) && i.ref == old(i.ref) && i.freed == old(i.freed)
      decreases |handles|, 3
    {
      UiClose(info.uiHandle, closing);
      info.outcome := Closed;
      var alive := info.Unref();
    }

    /** The loops that close requests: one is taken out of `handles` and closed. */
    method CloseOne(info: Info, ghost k: nat, ghost closing: set<Info>)
      requires ValidBut(closing) && k < |handles| && handles[k] == info
      modifies this`handles, set i | i in handles
      ensures ValidBut(closing) && all == old(all) && info.freed == 1 && info.outcome == Closed
      ensures handles == Minus(old(handles), info) && info !in handles && |handles| == |old(handles)| - 1
      ensures forall j :: 0 <= j < k ==> handles[j] == old(handles[j])
      ensures forall i :: i in handles ==>
        i in old(handles) && i.uiHandle == old(i.uiHandle) && i.ref == old(i.ref) && i.freed == old(i.freed)
      ensures forall i :: i in old(handles) && i != info ==> i in handles
      decreases |handles|, 0
    {
      IndexAt(handles, k);
      MinusIsDistinct(handles, info);
      handles := Minus(handles, info);
      assert forall i :: i in handles ==> i in old(handles);
      assert forall j :: 0 <= j < k ==> handles[j] == old(handles[j]);
      hide NoDup, Minus;
      CloseInfo(info, closing + {info});
      assert closing + {info} - {info} == closing;
    }

    /** The user interface closes the window, and when that is gone it closes the request again. */
    method UiClose(uiHandle: nat, ghost closing: set<Info>)
      requires ValidBut(closing) && forall i :: i in handles ==> i.uiHandle != uiHandle
      modifies this`handles, set i | i in handles
      ensures ValidBut(closing) && handles == old(handles) && all == old(all)
      ensures forall i :: i in handles ==> i.uiHandle == old(i.uiHandle)
      ensures forall i :: i in old(handles) ==> i.ref == old(i.ref) && i.freed == old(i.freed)
      decreases |handles|, 2
    {
      Close(uiHandle, closing);
    }

    ghost function Using(uiHandle: nat): set<Info>
      reads this`handles, handles`uiHandle
    {
      set i | i in handles && i.uiHandle == uiHandle
    }

    /** `purple_account_request_close`: the others keep their order. */
    method Close(uiHandle: nat, ghost closing: set<Info>)
      requires ValidBut(closing)
      modifies this`handles, set i | i in handles
      ensures ValidBut(closing) && all == old(all)
      ensures handles == Filter(old(handles), NotIn(old(Using(uiHandle))))
      ensures forall i :: i in handles <==> i in old(handles) && old(i.uiHandle) != uiHandle
      ensures forall i :: i in old(handles) && old(i.uiHandle) == uiHandle ==> i.freed == 1 && i.outcome == Closed
      ensures forall i :: i in handles ==>
        i.uiHandle == old(i.uiHandle) && i.ref == old(i.ref) && i.freed == old(i.freed)
      ensures (forall i :: i in old(handles) ==> old(i.uiHandle) != uiHandle) ==> handles == old(handles)
      decreases |handles|, 1
    {
      var k := 0;
      ghost var n, mine := |handles|, Using(uiHandle);
      while k < |handles|
        invariant k <= |handles| <= n && ValidBut(closing) && all == old(all)
        invariant Filter(handles, NotIn(mine)) == Filter(old(handles), NotIn(mine))
        invariant forall i :: i in handles ==>
          i in old(handles) && i.uiHandle == old(i.uiHandle) && i.ref == old(i.ref) && i.freed == old(i.freed)
        invariant forall i :: i in old(handles) && i !in handles ==>
          old(i.uiHandle) == uiHandle && i.freed == 1 && i.outcome == Closed
        invariant forall j :: 0 <= j < k ==> handles[j].uiHandle != uiHandle
        invariant |handles| < n ==> forall i :: i in handles ==> i.uiHandle != uiHandle
        invariant |handles| == n ==> handles == old(handles)
        invariant |handles| < n ==> exists i :: i in old(handles) && old(i.uiHandle) == uiHandle
        decreases |handles| - k
      {
        var info := handles[k];
        if info.uiHandle == uiHandle {
          FilterOut(handles, info, NotIn(mine));
          CloseOne(info, k, closing);
        } else {
          k := k + 1;
        }
      }
      FilterAll(handles, NotIn(mine));
    }

    /** `purple_account_request_close_with_account`: the others keep their order. */
    method CloseWithAccount(account: nat)
      requires Valid()
      modifies this`handles, set i | i in handles
      ensures Valid() && all == old(all)
      ensures handles == Filter(old(handles), NotOf(account))
      ensures forall i :: i in handles <==> i in old(handles) && i.account != account
      ensures forall i :: i in old(handles) && i.account == account ==> i.freed == 1 && i.outcome == Closed
    {
      var k := 0;
      while k < |handles|
        invariant k <= |handles| && Valid() && all == old(all)
        invariant Filter(handles, NotOf(account)) == Filter(old(handles), NotOf(account))
        invariant forall i :: i in handles ==> i in old(handles) && i.uiHandle == old(i.uiHandle)
        invariant forall i :: i in old(handles) && i !in handles ==>
          i.account == account && i.freed == 1 && i.outcome == Closed
        invariant forall j :: 0 <= j < k ==> handles[j].account != account
        decreases |handles| - k
      {
        var info := handles[k];
        if info.account == account {
          FilterOut(handles, info, NotOf(account));
          CloseOne(info, k, {});
        } else {
          k := k + 1;
        }
      }
      FilterAll(handles, NotOf(account));
    }
  }

  lemma IndexAt(s: seq<Info>, k: nat)
    requires NoDup(s) && k < |s|
    ensures IndexOf(s, s[k]) == k
  {
    IndexOfIs(s, s[k], k);
  }
}
