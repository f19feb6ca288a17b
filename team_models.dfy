/** The football team record: three required strings and twelve optional ones. */
module TeamModels {
  import opened Wrappers

  datatype FootballTeam = FootballTeam(
    teamId: string,
    teamName: string,
    alternateName: Option<string>,
    formationYear: Option<string>,
    sportType: string,
    leagueName: Option<string>,
    stadiumName: Option<string>,
    stadiumLocation: Option<string>,
    teamDescription: Option<string>,
    badgeImageUrl: Option<string>,
    jerseyImageUrl: Option<string>,
    officialWebsite: Option<string>,
    facebookUrl: Option<string>,
    twitterUrl: Option<string>,
    youtubeUrl: Option<string>)

  /** The twelve optional fields, in declaration order. */
  function OptionalFields(t: FootballTeam): (r: seq<Option<string>>)
    ensures |r| == 12
  {
    [ t.alternateName, t.formationYear, t.leagueName, t.stadiumName, t.stadiumLocation,
      t.teamDescription, t.badgeImageUrl, t.jerseyImageUrl, t.officialWebsite,
      t.facebookUrl, t.twitterUrl, t.youtubeUrl ]
  }

  /** A record built from its twelve optional values, given in declaration order. */
  function TeamOf(teamId: string, teamName: string, sportType: string, optional: seq<Option<string>>): (t: FootballTeam)
    requires |optional| == 12
    ensures t.teamId == teamId && t.teamName == teamName && t.sportType == sportType
    ensures OptionalFields(t) == optional
  {
    FootballTeam(teamId, teamName, optional[0], optional[1], sportType, optional[2], optional[3],
      optional[4], optional[5], optional[6], optional[7], optional[8], optional[9], optional[10], optional[11])
  }

  /** A record given only the three required fields: every optional field takes its default `None`. */
  function WithRequiredOnly(teamId: string, teamName: string, sportType: string): (t: FootballTeam)
    ensures t.teamId == teamId && t.teamName == teamName && t.sportType == sportType
    ensures forall i :: 0 <= i < 12 ==> OptionalFields(t)[i] == None
  {
    TeamOf(teamId, teamName, sportType, seq(12, _ => None))
  }

  /** The record is determined by its three required fields and its twelve optional ones. */
  lemma TeamDeterminedByFields(t: FootballTeam, u: FootballTeam)
    requires t.teamId == u.teamId && t.teamName == u.teamName && t.sportType == u.sportType
    requires OptionalFields(t) == OptionalFields(u)
    ensures t == u
  {
    assert forall i :: 0 <= i < 12 ==> OptionalFields(t)[i] == OptionalFields(u)[i];
  }
}
