/**
 * FileListTorrent: one torrent as the API describes it. The record is built
 * once from the raw fields of the API's answer: two 0/1 integers become
 * booleans, the TV season and episode are read from a dictionary, and every
 * other field is copied. Nothing changes it afterwards.
 */
module Torrent {
  import opened Wrappers
  import opened Runtime

  /** The constructor's arguments, as the API sends them. */
  datatype TorrentArgs = TorrentArgs(
    id: Int32,
    name: string,
    imdb: Option<string>,
    freeleech: bool,
    doubleup: bool,
    uploadDate: string,
    downloadLink: string,
    size: Int64,
    internalnum: Int32,
    moderated: Int32,
    category: string,
    seeders: Int32,
    leechers: Int32,
    timesCompleted: Int32,
    comments: Int32,
    files: Int32,
    description: string,
    tv: map<string, Option<Int32>>)

  /** The readonly fields of a constructed record. */
  datatype FileListTorrent = FileListTorrent(
    id: Int32,
    name: string,
    imdb: Option<string>,
    freeleech: bool,
    doubleup: bool,
    uploadDate: string,
    downloadLink: string,
    size: Int64,
    internal: bool,
    moderated: bool,
    category: string,
    seeders: Int32,
    leechers: Int32,
    timesCompleted: Int32,
    comments: Int32,
    files: Int32,
    description: string,
    tvSeason: Option<Int32>,
    tvEpisode: Option<Int32>)

  /**
   * The constructor. The field initialisers run in declaration order, so a
   * missing "season" key is reported before a missing "episode" key.
   */
  function Construct(a: TorrentArgs): (r: Result<FileListTorrent, Exception>)
    ensures r.Success? <==> "season" in a.tv && "episode" in a.tv
    ensures "season" !in a.tv ==> r == Failure(KeyNotFoundException("season"))
    ensures "season" in a.tv && "episode" !in a.tv ==> r == Failure(KeyNotFoundException("episode"))
    ensures r.Success? ==> (r.value.internal <==> a.internalnum == 1)
    ensures r.Success? ==> (r.value.moderated <==> a.moderated == 1)
    ensures r.Success? ==> r.value.tvSeason == a.tv["season"] && r.value.tvEpisode == a.tv["episode"]
  {
    if "season" !in a.tv then Failure(KeyNotFoundException("season"))
    else if "episode" !in a.tv then Failure(KeyNotFoundException("episode"))
    else Success(FileListTorrent(
      a.id, a.name, a.imdb, a.freeleech, a.doubleup, a.uploadDate, a.downloadLink, a.size,
      a.internalnum == 1, a.moderated == 1,
      a.category, a.seeders, a.leechers, a.timesCompleted, a.comments, a.files, a.description,
      a.tv["season"], a.tv["episode"]))
  }

  /**
   * Every field that is not decoded is the argument of the same name, unchanged.
   */
  lemma ConstructCopies(a: TorrentArgs)
    requires "season" in a.tv && "episode" in a.tv
    ensures var t := Construct(a).value;
      && t.id == a.id && t.name == a.name && t.imdb == a.imdb
      && t.freeleech == a.freeleech && t.doubleup == a.doubleup
      && t.uploadDate == a.uploadDate && t.downloadLink == a.downloadLink && t.size == a.size
      && t.category == a.category && t.seeders == a.seeders && t.leechers == a.leechers
      && t.timesCompleted == a.timesCompleted && t.comments == a.comments && t.files == a.files
      && t.description == a.description
  {
  }

  /** Raw arguments that describe a record: flags sent as 0 or 1, a tv map with exactly the two keys. */
  function Deconstruct(t: FileListTorrent): TorrentArgs
  {
    TorrentArgs(
      t.id, t.name, t.imdb, t.freeleech, t.doubleup, t.uploadDate, t.downloadLink, t.size,
      if t.internal then 1 else 0, if t.moderated then 1 else 0,
      t.category, t.seeders, t.leechers, t.timesCompleted, t.comments, t.files, t.description,
      map["season" := t.tvSeason, "episode" := t.tvEpisode])
  }

  /** Arguments in the form the API is expected to send them. */
  predicate Canonical(a: TorrentArgs)
  {
    && a.internalnum in {0, 1}
    && a.moderated in {0, 1}
    && a.tv.Keys == {"season", "episode"}
  }

  /** Every record is constructed from its deconstruction. */
  lemma ConstructDeconstruct(t: FileListTorrent)
    ensures Canonical(Deconstruct(t))
    ensures Construct(Deconstruct(t)) == Success(t)
  {
  }

  /**
   * Constructing loses nothing from canonical arguments; from any other
   * arguments it loses exactly how a non-1 flag was written and the extra
   * keys of the tv map.
   */
  lemma DeconstructConstruct(a: TorrentArgs)
    requires "season" in a.tv && "episode" in a.tv
    ensures Deconstruct(Construct(a).value) == a <==> Canonical(a)
  {
    var d := Deconstruct(Construct(a).value);
    if Canonical(a) {
      assert d.tv == a.tv;
    }
  }

  /** Two canonical argument lists give the same record only when they are the same. */
  lemma ConstructInjectiveUpToDecoding(a: TorrentArgs, b: TorrentArgs)
    requires Canonical(a) && Canonical(b)
    ensures Construct(a) == Construct(b) ==> a == b
  {
    if Construct(a) == Construct(b) {
      DeconstructConstruct(a);
      DeconstructConstruct(b);
    }
  }

  /** A flag written as 2 or -1 decodes to false, like 0. */
  lemma OnlyOneIsTrue(a: TorrentArgs)
    requires "season" in a.tv && "episode" in a.tv
    requires a.internalnum == 2 && a.moderated == -1
    ensures !Construct(a).value.internal && !Construct(a).value.moderated
  {
  }
}
