/**
 * client/src/features/meeting/MeetingVideoGrid.tsx: the tiles of the meeting
 * page. The local peer's tile comes first, then one tile per remote peer with
 * the consumers attributed to it; tiles are shown ten to a page, and the tiles
 * on screen are laid out in a grid of near-equal rows and columns.
 */
module MeetingVideoGrid {
  import opened Wrappers
  import opened Seqs
  import opened RoomProvider

  /** One tile: the local peer with its producers, or a remote peer with its consumers. */
  datatype MediaTrack =
    | Mine(authPeer: Option<PeerInfo>, producers: seq<Producer>)
    | Theirs(peer: PeerInfo, consumers: seq<Consumer>)
  {
    predicate IsMe()
    {
      Mine?
    }
  }

  const ItemsPerPage: nat := 10

  // ---------------------------------------------------------------------------
  // Tiles
  // ---------------------------------------------------------------------------

  /** `consumer.appData.peerId === peer.id`: never true for a peer without an id. */
  predicate IsFrom(peerId: Option<string>, c: Consumer)
  {
    Some(c.peerId) == peerId
  }

  /** The consumers whose `appData.peerId` is `peerId`, in their order. */
  function ConsumersOf(consumers: seq<Consumer>, peerId: Option<string>): seq<Consumer>
  {
    Filter(consumers, c => IsFrom(peerId, c))
  }

  /** `otherPeers`: one tile per remote peer. */
  function OtherPeers(peers: seq<PeerInfo>, consumers: seq<Consumer>): (tiles: seq<MediaTrack>)
    ensures |tiles| == |peers|
    ensures forall i :: 0 <= i < |peers| ==> tiles[i] == Theirs(peers[i], ConsumersOf(consumers, peers[i].id))
  {
    seq(|peers|, i requires 0 <= i < |peers| => Theirs(peers[i], ConsumersOf(consumers, peers[i].id)))
  }

  /** `mediaTracks`: the local tile followed by the remote ones. */
  function MediaTracks(state: RoomState): (tiles: seq<MediaTrack>)
    ensures |tiles| == |state.peers| + 1
    ensures tiles[0] == Mine(state.authPeer, state.producers)
    ensures forall i :: 1 <= i < |tiles| ==>
      !tiles[i].IsMe() && tiles[i].peer == state.peers[i - 1]
  {
    [Mine(state.authPeer, state.producers)] + OtherPeers(state.peers, state.consumers)
  }

  /** Each remote tile holds exactly the consumers attributed to its peer, in order, and each of them once. */
  lemma ConsumerAttribution(state: RoomState, i: nat, c: Consumer)
    requires 1 <= i <= |state.peers|
    ensures var tile := MediaTracks(state)[i];
      && (c in tile.consumers <==> c in state.consumers && Some(c.peerId) == state.peers[i - 1].id)
      && IsSubsequence(tile.consumers, state.consumers)
      && multiset(tile.consumers)[c] == if Some(c.peerId) == state.peers[i - 1].id then multiset(state.consumers)[c] else 0
  {
    var id := state.peers[i - 1].id;
    FilterIsSubsequence(state.consumers, c => IsFrom(id, c));
    FilterCount(state.consumers, c => IsFrom(id, c), c);
  }

  // ---------------------------------------------------------------------------
  // Which producer or consumer feeds a tile
  // ---------------------------------------------------------------------------

  /** `producer?.appData?.mediaType === kind`. */
  function OfType(kind: MediaType): Producer -> bool
  {
    (p: Producer) => p.mediaType == kind
  }

  /** `consumer.kind === kind`. */
  function OfKind(kind: MediaType): Consumer -> bool
  {
    (c: Consumer) => c.kind == kind
  }

  /** `find` of the first producer whose `appData.mediaType` is `kind`. */
  function FindProducerOfType(producers: seq<Producer>, kind: MediaType): Option<Producer>
  {
    Find(producers, OfType(kind))
  }

  /** `find` of the first consumer whose `kind` is `kind`. */
  function FindConsumerOfKind(consumers: seq<Consumer>, kind: MediaType): Option<Consumer>
  {
    Find(consumers, OfKind(kind))
  }

  /** The producer or consumer whose track fills a tile's video. */
  datatype TrackSource = FromProducer(producer: Producer) | FromConsumer(consumer: Consumer)

  /** The video source of a tile: the first VIDEO producer for the local tile, the first VIDEO consumer for a remote one. */
  function VideoSource(tile: MediaTrack): (s: Option<TrackSource>)
    ensures tile.IsMe() && s.Some? ==>
      s.value.FromProducer? && exists i :: FirstWhere(tile.producers, OfType(VIDEO), i) && tile.producers[i] == s.value.producer
    ensures !tile.IsMe() && s.Some? ==>
      s.value.FromConsumer? && exists i :: FirstWhere(tile.consumers, OfKind(VIDEO), i) && tile.consumers[i] == s.value.consumer
    ensures s.None? <==> if tile.IsMe() then forall p :: p in tile.producers ==> p.mediaType != VIDEO
      else forall c :: c in tile.consumers ==> c.kind != VIDEO
  {
    match tile
    case Mine(_, producers) =>
      var p := FindProducerOfType(producers, VIDEO);
      if p.Some? then Some(FromProducer(p.value)) else None
    case Theirs(_, consumers) =>
      var c := FindConsumerOfKind(consumers, VIDEO);
      if c.Some? then Some(FromConsumer(c.value)) else None
  }

  /**
   * The audio source of a tile as written: the local tile's producers are
   * searched on `appData.mediaTyp`, a property no producer carries, so no
   * producer ever matches.
   */
  function AudioSourceAsWritten(tile: MediaTrack): Option<TrackSource>
  {
    match tile
    case Mine(_, producers) => None
    case Theirs(_, consumers) =>
      var c := FindConsumerOfKind(consumers, AUDIO);
      if c.Some? then Some(FromConsumer(c.value)) else None
  }

  /**
   * The local tile never gets an audio track, whatever AUDIO producers it has,
   * while the lookup on `mediaType` finds the first of them.
   */
  lemma LocalAudioIsLost(a: Option<PeerInfo>, producers: seq<Producer>, k: nat)
    requires k < |producers| && producers[k].mediaType == AUDIO
    ensures AudioSourceAsWritten(Mine(a, producers)) == None
    ensures AudioSource(Mine(a, producers)).Some?
    ensures AudioSource(Mine(a, producers)).value.producer.mediaType == AUDIO
  {
    assert OfType(AUDIO)(producers[k]);
  }

  /** The audio source with the property name `mediaType`, symmetric to `VideoSource`. */
  function AudioSource(tile: MediaTrack): (s: Option<TrackSource>)
    ensures tile.IsMe() && s.Some? ==>
      s.value.FromProducer? && exists i :: FirstWhere(tile.producers, OfType(AUDIO), i) && tile.producers[i] == s.value.producer
    ensures !tile.IsMe() && s.Some? ==>
      s.value.FromConsumer? && exists i :: FirstWhere(tile.consumers, OfKind(AUDIO), i) && tile.consumers[i] == s.value.consumer
    ensures s.None? <==> if tile.IsMe() then forall p :: p in tile.producers ==> p.mediaType != AUDIO
      else forall c :: c in tile.consumers ==> c.kind != AUDIO
    ensures !tile.IsMe() ==> s == AudioSourceAsWritten(tile)
  {
    match tile
    case Mine(_, producers) =>
      var p := FindProducerOfType(producers, AUDIO);
      if p.Some? then Some(FromProducer(p.value)) else None
    case Theirs(_, consumers) =>
      var c := FindConsumerOfKind(consumers, AUDIO);
      if c.Some? then Some(FromConsumer(c.value)) else None
  }

  /**
   * A remote tile's video and audio come from consumers attributed to its peer,
   * of the right kind, and so never from the same consumer.
   */
  lemma RemoteSources(state: RoomState, i: nat)
    requires 1 <= i <= |state.peers|
    ensures var tile := MediaTracks(state)[i];
      && (VideoSource(tile).Some? ==>
            var c := VideoSource(tile).value.consumer;
            c in state.consumers && Some(c.peerId) == state.peers[i - 1].id && c.kind == VIDEO)
      && (AudioSource(tile).Some? ==>
            var c := AudioSource(tile).value.consumer;
            c in state.consumers && Some(c.peerId) == state.peers[i - 1].id && c.kind == AUDIO)
      && (VideoSource(tile).Some? && AudioSource(tile).Some? ==> VideoSource(tile) != AudioSource(tile))
  {
    var tile := MediaTracks(state)[i];
    if VideoSource(tile).Some? {
      var c := VideoSource(tile).value.consumer;
      var j :| FirstWhere(tile.consumers, OfKind(VIDEO), j) && tile.consumers[j] == c;
      ConsumerAttribution(state, i, c);
    }
    if AudioSource(tile).Some? {
      var c := AudioSource(tile).value.consumer;
      var j :| FirstWhere(tile.consumers, OfKind(AUDIO), j) && tile.consumers[j] == c;
      ConsumerAttribution(state, i, c);
    }
  }

  // ---------------------------------------------------------------------------
  // Pagination
  // ---------------------------------------------------------------------------

  /** `Math.ceil(n / itemsPerPage)`. */
  function TotalPages(n: nat): (total: nat)
    ensures n == 0 ==> total == 0
    ensures n > 0 ==> ItemsPerPage * (total - 1) < n <= ItemsPerPage * total
  {
    (n + ItemsPerPage - 1) / ItemsPerPage
  }

  /** An index argument of `Array.prototype.slice`: negative counts from the end, clamped to the bounds. */
  function SliceBound(len: nat, k: int): (b: nat)
    ensures b <= len
    ensures 0 <= k <= len ==> b == k
    ensures k > len ==> b == len
    ensures k < 0 ==> b == if len + k < 0 then 0 else len + k
  {
    if k < 0 then (if len + k < 0 then 0 else len + k)
    else if k > len then len
    else k
  }

  /** `s.slice(start, end)`: the elements from the clamped start up to the clamped end, none when they cross. */
  function JsSlice<T>(s: seq<T>, start: int, end: int): (r: seq<T>)
    ensures var lo, hi := SliceBound(|s|, start), SliceBound(|s|, end);
      && |r| == (if lo < hi then hi - lo else 0)
      && forall i :: 0 <= i < |r| ==> r[i] == s[lo + i]
  {
    var lo, hi := SliceBound(|s|, start), SliceBound(|s|, end);
    if lo < hi then s[lo..hi] else []
  }

  /** `currentVideosStreams`: the tiles shown on page `page`. */
  function Page<T>(tiles: seq<T>, page: int): seq<T>
  {
    JsSlice(tiles, (page - 1) * ItemsPerPage, page * ItemsPerPage)
  }

  function Min(a: int, b: int): int
  {
    if a < b then a else b
  }

  /** Each of the pages `1..TotalPages` is a non-empty run of at most ten consecutive tiles. */
  lemma PageContents<T>(tiles: seq<T>, page: int)
    requires 1 <= page <= TotalPages(|tiles|)
    ensures (page - 1) * ItemsPerPage < Min(page * ItemsPerPage, |tiles|) <= |tiles|
    ensures Page(tiles, page) == tiles[(page - 1) * ItemsPerPage .. Min(page * ItemsPerPage, |tiles|)]
    ensures 1 <= |Page(tiles, page)| <= ItemsPerPage
  {
  }

  /**
   * Page 0 and the pages after `TotalPages` are empty. (A negative page is not:
   * `slice` counts negative bounds from the end.)
   */
  lemma PageOutOfRange<T>(tiles: seq<T>, page: int)
    requires page == 0 || page > TotalPages(|tiles|)
    ensures Page(tiles, page) == []
  {
    if page > 0 {
      assert (page - 1) * ItemsPerPage >= TotalPages(|tiles|) * ItemsPerPage >= |tiles|;
    }
  }

  /** Pages `1..k` one after the other. */
  function PagesUpTo<T>(tiles: seq<T>, k: nat): seq<T>
  {
    if k == 0 then [] else PagesUpTo(tiles, k - 1) + Page(tiles, k)
  }

  lemma {:induction false} PagesUpToPrefix<T>(tiles: seq<T>, k: nat)
    requires k <= TotalPages(|tiles|)
    ensures PagesUpTo(tiles, k) == tiles[..Min(k * ItemsPerPage, |tiles|)]
  {
    if k > 0 {
      PagesUpToPrefix(tiles, k - 1);
      PageContents(tiles, k);
      var lo := (k - 1) * ItemsPerPage;
      assert Min(lo, |tiles|) == lo;
      assert tiles[..lo] + tiles[lo..Min(k * ItemsPerPage, |tiles|)] == tiles[..Min(k * ItemsPerPage, |tiles|)];
    }
  }

  /** Pages `1..TotalPages` put together are exactly the tiles: each tile is shown on exactly one page. */
  lemma PagesCoverTiles<T>(tiles: seq<T>)
    ensures PagesUpTo(tiles, TotalPages(|tiles|)) == tiles
  {
    PagesUpToPrefix(tiles, TotalPages(|tiles|));
    assert tiles[..|tiles|] == tiles;
  }

  /** Tile `i` is on page `i / 10 + 1`, at position `i % 10`, and on no other page. */
  lemma TileOnOnePage<T>(tiles: seq<T>, i: nat, page: int)
    requires i < |tiles|
    ensures 1 <= i / ItemsPerPage + 1 <= TotalPages(|tiles|)
    ensures var home := Page(tiles, i / ItemsPerPage + 1);
      i % ItemsPerPage < |home| && home[i % ItemsPerPage] == tiles[i]
    ensures (page == i / ItemsPerPage + 1) <==>
      1 <= page <= TotalPages(|tiles|) && (page - 1) * ItemsPerPage <= i < page * ItemsPerPage
  {
    PageContents(tiles, i / ItemsPerPage + 1);
  }

  /** `isFirstPage`. */
  predicate IsFirstPage(currentPage: int)
  {
    currentPage == 1
  }

  /** `isLastPage`. */
  predicate IsLastPage(totalPages: nat, currentPage: int)
  {
    totalPages == currentPage
  }

  /** `totalPages > 1`: whether the page buttons render. */
  predicate ShowsPageControls(totalPages: nat)
  {
    totalPages > 1
  }

  /** The page buttons render iff the tiles do not fit one page, i.e. there are ten or more remote peers. */
  lemma PageControlsShown(state: RoomState)
    ensures var tiles := MediaTracks(state);
      ShowsPageControls(TotalPages(|tiles|)) <==> |tiles| > ItemsPerPage
    ensures ShowsPageControls(TotalPages(|MediaTracks(state)|)) <==> |state.peers| >= ItemsPerPage
  {
  }

  /** On a page in range, it is the last one iff no tile comes after it, and the first one iff no tile comes before it. */
  lemma PageFlags<T>(tiles: seq<T>, page: int)
    requires 1 <= page <= TotalPages(|tiles|)
    ensures IsLastPage(TotalPages(|tiles|), page) <==> Page(tiles, page + 1) == []
    ensures IsFirstPage(page) <==> Page(tiles, page - 1) == []
  {
    if page < TotalPages(|tiles|) {
      PageContents(tiles, page + 1);
    } else {
      PageOutOfRange(tiles, page + 1);
    }
    if page > 1 {
      PageContents(tiles, page - 1);
    } else {
      PageOutOfRange(tiles, page - 1);
    }
  }

  /**
   * After the tiles shrink below the current page, the page is empty and is
   * flagged neither last nor (with any tile) first. The buttons themselves
   * render only while the tiles still exceed one page.
   */
  lemma StalePage<T>(tiles: seq<T>, page: int)
    requires page > TotalPages(|tiles|)
    ensures Page(tiles, page) == []
    ensures !IsLastPage(TotalPages(|tiles|), page)
    ensures |tiles| > 0 ==> !IsFirstPage(page)
    ensures ShowsPageControls(TotalPages(|tiles|)) <==> |tiles| > ItemsPerPage
  {
    PageOutOfRange(tiles, page);
  }

  /** The button that is shown moves the page within `1..TotalPages`. */
  lemma VisibleButtonsStayInRange(totalPages: nat, page: int)
    requires 1 <= page <= totalPages
    ensures !IsLastPage(totalPages, page) ==> 1 <= page + 1 <= totalPages
    ensures !IsFirstPage(page) ==> 1 <= page - 1 <= totalPages
  {
  }

  /** `currentPage` and its two buttons. */
  class Pager {
    var currentPage: int

    constructor ()
      ensures currentPage == 1 && IsFirstPage(currentPage)
    {
      currentPage := 1;
    }

    /** `handleNextPage`. */
    method HandleNextPage()
      modifies this
      ensures currentPage == old(currentPage) + 1
    {
      currentPage := currentPage + 1;
    }

    /** `handlePreviousPage`. */
    method HandlePreviousPage()
      modifies this
      ensures currentPage == old(currentPage) - 1
    {
      currentPage := currentPage - 1;
    }
  }

  // ---------------------------------------------------------------------------
  // Grid shape in resizeVideos
  // ---------------------------------------------------------------------------

  /** The least `s >= r` with `s * s >= n`. */
  function CeilSqrtFrom(n: nat, r: nat): (s: nat)
    requires r == 0 || (r - 1) * (r - 1) < n
    ensures s * s >= n && s >= r
    ensures s == 0 || (s - 1) * (s - 1) < n
    decreases n - r
  {
    if r * r >= n then r
    else
      assert r <= r * r;
      CeilSqrtFrom(n, r + 1)
  }

  /** `Math.ceil(Math.sqrt(n))`: the least `r` with `r * r >= n`. */
  function CeilSqrt(n: nat): (r: nat)
    ensures r * r >= n
    ensures r == 0 || (r - 1) * (r - 1) < n
    ensures n > 0 ==> r > 0
  {
    CeilSqrtFrom(n, 0)
  }

  /** `Math.ceil(a / b)`. */
  function CeilDiv(a: nat, b: nat): (q: nat)
    requires b > 0
    ensures b * q >= a
    ensures q == 0 || b * (q - 1) < a
  {
    (a + b - 1) / b
  }

  datatype Grid = Grid(rows: nat, cols: nat)

  /**
   * `rows` and `cols` for `n` tiles in a container of the given size. With no
   * tile, `Math.ceil(0 / 0)` is NaN and there is no grid.
   */
  function GridShape(n: nat, width: int, height: int): (g: Option<Grid>)
    ensures g.None? <==> n == 0
    ensures g.Some? ==> g.value.rows * g.value.cols >= n
    ensures g.Some? && width > height ==> g.value.rows <= g.value.cols <= g.value.rows + 1
    ensures g.Some? && width <= height ==> g.value.cols <= g.value.rows <= g.value.cols + 1
  {
    if n == 0 then None
    else
      var rows := CeilSqrt(n);
      var cols := CeilDiv(n, rows);
      NearSquare(n, rows, cols);
      if width > height then Some(Grid(cols, rows)) else Some(Grid(rows, cols))
  }

  /** With `r = ceil(sqrt n)`, `ceil(n / r)` is `r` or `r - 1`. */
  lemma NearSquare(n: nat, r: nat, c: nat)
    requires n > 0 && r > 0 && r * r >= n && (r - 1) * (r - 1) < n
    requires r * c >= n && (c == 0 || r * (c - 1) < n)
    ensures r * c >= n
    ensures c <= r <= c + 1
  {
    ScaleMonotonic(r, r, c - 1);
    ScaleMonotonic(r, c, r - 2);
    assert r * (r - 2) + 1 == (r - 1) * (r - 1);
  }

  lemma ScaleMonotonic(a: nat, b: int, x: int)
    ensures b <= x ==> a * b <= a * x
  {
    if b <= x {
      assert a * x == a * b + a * (x - b);
    }
  }

  /** Neither dimension can shrink: `ceil(sqrt n)` is the least square side, and the other is the least that holds all `n` tiles. */
  lemma GridIsTight(n: nat, width: int, height: int)
    requires n > 0
    ensures var g := GridShape(n, width, height).value;
      var side := if width > height then g.cols else g.rows;
      var fill := if width > height then g.rows else g.cols;
      && (side - 1) * (side - 1) < n
      && side * (fill - 1) < n
  {
  }
}
