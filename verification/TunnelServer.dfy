/** handle_tunnel as written: its lock regions and channel operations on shared maps. */
module TunnelServer {
  import opened Basics
  import opened Pairing

  class SocketTunnels {
    var handlers: map<Cid, Handler>
    var waiting: map<Token, Cid>
    var tokenBindings: map<Token, Binding>
    var expired: set<Token>
    var listedAt: map<Token, nat>
    var clock: nat
    ghost var issued: map<Token, Binding>
    ghost var run: seq<Step>

    ghost function View(): Server
      reads this
    {
      Server(handlers, waiting, tokenBindings, issued, expired, listedAt, clock)
    }

    /** The tables are the outcome of a run, the one recorded: all that holds of every run
        of the pairing protocol holds of them. */
    ghost predicate Valid()
      reads this
    {
      Legal(run) && After(run) == View()
    }

    constructor ()
      ensures Valid() && run == []
    {
      handlers, waiting, tokenBindings := map[], map[], map[];
      issued, expired, listedAt, clock, run := map[], {}, map[], 0, [];
    }

    /** One more step of the run. */
    ghost method Record(st: Step)
      requires Valid() && Enabled(View(), st)
      modifies this`run
      ensures run == old(run) + [st] && Legal(run) && After(run) == Apply(View(), st)
    {
      run := run + [st];
      assert Before(run) == old(run);
    }

    method SetPc(c: Cid, pc: Pc)
      requires c in handlers
      modifies this`handlers
      ensures handlers == old(handlers)[c := old(handlers)[c].(pc := pc)]
    {
      handlers := handlers[c := handlers[c].(pc := pc)];
    }

    /** waiting.remove(token): the entry, and with it the notify sender, goes to the caller. */
    method RemoveWaiter(t: Token, n: Notify) returns (waiter: Option<Cid>)
      modifies this`handlers, this`waiting
      ensures View() == Remove(old(View()), t, n)
      ensures waiter == if t in old(waiting) then Some(old(waiting)[t]) else None
    {
      waiter := None;
      if t in waiting {
        var w := waiting[t];
        waiter := Some(w);
        waiting := waiting - {t};
        if w in handlers {
          handlers := handlers[w := handlers[w].(notify := n)];
        }
      }
    }

    method RegisterToken(t: Token, b: Binding)
      requires Valid() && Enabled(View(), Issue(t, b))
      modifies this`tokenBindings, this`issued, this`run
      ensures Valid() && run == old(run) + [Issue(t, b)]
      ensures tokenBindings == old(tokenBindings)[t := b] && issued == old(issued)[t := b]
    {
      Record(Issue(t, b));
      tokenBindings := tokenBindings[t := b];
      issued := issued[t := b];
    }

    /** A tunnel connection arrives, with whatever token and role it claims. */
    method Accept(c: Cid, token: Token, role: Role, ip: nat)
      requires Valid() && c !in handlers
      modifies this`handlers, this`run
      ensures Valid() && run == old(run) + [Connect(c, token, role, ip)]
    {
      Record(Connect(c, token, role, ip));
      handlers := handlers[c := Handler(token, role, ip, Arrived, NotMade, None)];
    }

    method Elapse(seconds: nat)
      requires Valid()
      modifies this`clock, this`run
      ensures Valid() && run == old(run) + [Tick(seconds)]
    {
      Record(Tick(seconds));
      clock := clock + seconds;
    }

    /** The relay ended, and with it the connection. */
    method EndRelay(c: Cid)
      requires Valid() && Enabled(View(), Finish(c))
      modifies this`handlers, this`run
      ensures Valid() && run == old(run) + [Finish(c)]
    {
      Record(Finish(c));
      SetPc(c, Ended);
    }

    method CheckBinding(c: Cid)
      requires Valid() && Enabled(View(), Check(c))
      modifies this`handlers, this`run
      ensures Valid() && run == old(run) + [Check(c)]
      ensures var h := old(handlers[c]);
              handlers[c].pc ==
                if h.token in tokenBindings &&
                   ((h.role == HostRole && h.ip == tokenBindings[h.token].hostIp) ||
                    (h.role == JoinRole && h.ip == tokenBindings[h.token].joinerIp))
                then Verified else Refused
    {
      Record(Check(c));
      var h := handlers[c];
      if h.token !in tokenBindings {
        SetPc(c, Refused);
      } else if !VerifyIp(tokenBindings[h.token], h.role, h.ip) {
        SetPc(c, Refused);
      } else {
        SetPc(c, Verified);
      }
    }

    method TakeWaiter(c: Cid)
      requires Valid() && Enabled(View(), Take(c))
      modifies this`handlers, this`waiting, this`run
      ensures Valid() && run == old(run) + [Take(c)]
      ensures var t := old(handlers[c]).token;
              && waiting == old(waiting) - {t}
              && handlers[c].pc == if t in old(waiting) then Took(old(waiting)[t]) else Inserting
    {
      Record(Take(c));
      var existing := RemoveWaiter(handlers[c].token, Held(c));
      if existing.Some? {
        SetPc(c, Took(existing.value));
      } else {
        SetPc(c, Inserting);
      }
    }

    method RemoveBinding(c: Cid)
      requires Valid() && Enabled(View(), Unbind(c))
      modifies this`handlers, this`tokenBindings, this`run
      ensures Valid() && run == old(run) + [Unbind(c)]
      ensures tokenBindings == old(tokenBindings) - {old(handlers[c]).token}
    {
      Record(Unbind(c));
      tokenBindings := tokenBindings - {handlers[c].token};
      SetPc(c, Unbound(handlers[c].pc.peer));
    }

    method NotifyPeer(c: Cid) returns (paired: bool)
      requires Valid() && Enabled(View(), Tell(c))
      modifies this`handlers, this`run
      ensures Valid() && run == old(run) + [Tell(c)]
      ensures paired == At(old(View()), old(handlers[c].pc.peer), Waiting)
    {
      Record(Tell(c));
      var p := handlers[c].pc.peer;
      paired := p in handlers && handlers[p].pc == Waiting;
      if p in handlers {
        handlers := handlers[p := handlers[p].(notify := if paired then Sent(c) else Dropped)];
      }
      if paired {
        handlers := handlers[c := handlers[c].(pc := Relaying, peer := Some(p))];
      } else {
        SetPc(c, Ended);
      }
    }

    method InsertWaiter(c: Cid)
      requires Valid() && Enabled(View(), Insert(c))
      modifies this`handlers, this`waiting, this`listedAt, this`run
      ensures Valid() && run == old(run) + [Insert(c)]
      ensures var t := old(handlers[c]).token;
              waiting == old(waiting)[t := c] && listedAt == old(listedAt)[t := clock] && handlers[c].pc == Waiting
    {
      Record(Insert(c));
      var h := handlers[c];
      var _ := RemoveWaiter(h.token, Dropped);
      waiting := waiting[h.token := c];
      listedAt := listedAt[h.token := clock];
      handlers := handlers[c := h.(pc := Waiting, notify := InMap)];
    }

    method PairingTimeout(c: Cid)
      requires Valid() && Enabled(View(), Timeout(c))
      modifies this`handlers, this`run
      ensures Valid() && run == old(run) + [Timeout(c)]
    {
      Record(Timeout(c));
      SetPc(c, TimedOut);
    }

    method Withdraw(c: Cid)
      requires Valid() && Enabled(View(), Step.Withdraw(c))
      modifies this`handlers, this`waiting, this`run
      ensures Valid() && run == old(run) + [Step.Withdraw(c)]
      ensures waiting == old(waiting) - {old(handlers[c]).token} && handlers[c].pc == Ended
    {
      Record(Step.Withdraw(c));
      SetPc(c, Ended);
      var _ := RemoveWaiter(handlers[c].token, Dropped);
    }

    method OnNotified(c: Cid)
      requires Valid() && (Enabled(View(), Receive(c)) || Enabled(View(), SenderGone(c)))
      modifies this`handlers, this`run
      ensures Valid() && run == old(run) + [if old(handlers[c].notify.Sent?) then Receive(c) else SenderGone(c)]
      ensures old(handlers[c].notify).Sent? ==>
                handlers[c].pc == Relaying && handlers[c].peer == Some(old(handlers[c].notify).taker)
      ensures !old(handlers[c].notify).Sent? ==> handlers[c].pc == Ended
    {
      Record(if handlers[c].notify.Sent? then Receive(c) else SenderGone(c));
      var h := handlers[c];
      if h.notify.Sent? {
        handlers := handlers[c := h.(pc := Relaying, peer := Some(h.notify.taker))];
      } else {
        SetPc(c, Ended);
      }
    }

    /** The removal loop of cleanup_expired. */
    method DropWaiters(overdue: set<Token>)
      requires forall t :: t in overdue ==> t in waiting && EntryFits(View(), t)
      modifies this`handlers, this`waiting
      ensures View() == RemoveAll(old(View()), overdue)
    {
      var todo := overdue;
      while todo != {}
        invariant todo <= overdue
        invariant View() == RemoveAll(old(View()), overdue - todo)
        decreases todo
      {
        var t :| t in todo;
        CleanOneMore(old(View()), overdue - todo, t);
        var _ := RemoveWaiter(t, Dropped);
        todo := todo - {t};
        assert overdue - todo == overdue - (todo + {t}) + {t};
      }
      assert overdue - {} == overdue;
    }

    /** cleanup_expired, first region: the overdue waiters, and no others, leave the map. */
    method CleanWaiters()
      requires Valid()
      modifies this`handlers, this`waiting, this`expired, this`run
      ensures Valid() && run == old(run) + [CleanWaiting]
      ensures forall t | t in old(waiting) ::
                t !in waiting <==> t in listedAt && clock - listedAt[t] > 30
      ensures waiting.Keys <= old(waiting).Keys
    {
      EntriesFit(run);
      Record(CleanWaiting);
      var overdue := set t | t in waiting && t in listedAt && clock - listedAt[t] > PAIRING_TIMEOUT;
      DropWaiters(overdue);
      expired := expired + overdue;
    }

    /** Then the bindings of the remembered tokens go, one by one. */
    method CleanExpiredBindings()
      requires Valid()
      modifies this`tokenBindings, this`expired, this`run
      ensures Valid() && run == old(run) + [CleanBindings]
      ensures tokenBindings == old(tokenBindings) - old(expired) && expired == {}
    {
      Record(CleanBindings);
      while expired != {}
        invariant expired <= old(expired)
        invariant tokenBindings == old(tokenBindings) - (old(expired) - expired)
        decreases expired
        modifies this`tokenBindings, this`expired
      {
        var t :| t in expired;
        tokenBindings := tokenBindings - {t};
        expired := expired - {t};
      }
      assert tokenBindings == old(tokenBindings) - old(expired);
    }
  }
}
