/**
  What a replay does when nothing else happens and no call of it fails.
  `Services.DispatchService.ReplayDelivery` is proved to compute `ReplayOnce`.
*/
module Replays {
  import opened Notification
  import opened Protocol

  /** The delivery is written back and announced. */
  function RequeuedOnce(cfg: Config, s: State, r: nat): State
    requires Replay(s, r).Saving?
  {
    ReplayDoes(cfg, ReplayDoes(cfg, s, r, Requeue(Applied)), r, Announce(Applied))
  }

  function ReplayOnce(cfg: Config, s: State, r: nat, id: nat): State
    requires ReplayCan(cfg, s, r, Open(id))
  {
    RequeuedOnce(cfg, ReplayDoes(cfg, s, r, Open(id)), r)
  }

  /**
    A replay queues the dead delivery, with no retries counted and its last error kept, puts a message for it on
    the stream that is marked as a replay, and changes nothing else.
  */
  lemma ReplayMeans(cfg: Config, s: State, r: nat, id: nat)
    requires ReplayCan(cfg, s, r, Open(id)) && s.db.deliveries[id].id == id
    ensures var d := s.db.deliveries[id];
            var requeued := Row(id, d.key, d.priority, d.scheduledAt, d.createdAt, Queued, 0, d.lastError, s.now);
            var subject := Routing.NotificationSubject(cfg.prefix, d.key.channel, d.priority);
            ReplayOnce(cfg, s, r, id) ==
            s.(db := s.db.(deliveries := s.db.deliveries[id := requeued]),
               bus := s.bus.(stream := s.bus.stream + [Message(id, subject, true)]),
               replays := s.replays[r := Off])
  {
    var t := ReplayOnce(cfg, s, r, id);
    assert t.replays == s.replays[r := Off];
  }
}
