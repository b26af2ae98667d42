/** The `WHERE` clause that `GET /:cluster/:group/media` appends to its query: always the
    cluster filter, then a condition on the group that depends on the requested group id. */
module MediaFilter {
  import opened Base

  /** The id that lists media in no group. */
  const Unsorted: int := -1
  /** The id that lists the media of the cluster whatever their group. */
  const Everything: int := -3

  /** The filter on the cluster, with its trailing space. */
  function ClusterFilter(cluster: int): string {
    "WHERE \"cluster\" = " + Itoa(cluster) + " "
  }

  const IsNullCondition: string := "AND \"group\" IS NULL"
  const EqualsPrefix: string := "AND \"group\" = "

  /** The condition that keeps only the media of one stored group. */
  function EqualsCondition(group: int): string {
    EqualsPrefix + Itoa(group)
  }

  /** The condition on the group: `Unsorted` selects media without a group, `Everything` adds
      none, and every other id (the trash, -2, among them) selects that group by equality. */
  function GroupCondition(group: int): (condition: string)
    ensures group == Everything <==> condition == ""
    ensures group == Unsorted <==> condition == IsNullCondition
    ensures group != Everything && group != Unsorted ==> condition == EqualsCondition(group)
  {
    if group == Everything then ""
    else if group == Unsorted then IsNullCondition
    else
      assert EqualsCondition(group)[12] != IsNullCondition[12];
      EqualsCondition(group)
  }

  /** The clause for a request: the cluster filter, then the group condition. */
  function Clause(cluster: int, group: int): (clause: string)
    ensures HasPrefix(clause, ClusterFilter(cluster))
    ensures clause[|ClusterFilter(cluster)|..] == GroupCondition(group)
  {
    ClusterFilter(cluster) + GroupCondition(group)
  }

  /** The handler's construction: a default equality condition, overridden for the two special
      ids, then prefixed with the cluster filter. */
  method WhereClause(cluster: int, group: int) returns (clause: string)
    ensures clause == Clause(cluster, group)
  {
    clause := EqualsCondition(group);
    if group == Unsorted {
      clause := IsNullCondition;
    }
    if group == Everything {
      clause := "";
    }
    clause := ClusterFilter(cluster) + clause;
  }

  /** The character after `AND "group" ` tells an equality condition from the null test. */
  lemma ConditionShape(group: int)
    ensures group == Everything ==> GroupCondition(group) == []
    ensures group == Unsorted ==> |GroupCondition(group)| > 12 && GroupCondition(group)[12] == 'I'
    ensures group != Everything && group != Unsorted ==>
      |GroupCondition(group)| > 12 && GroupCondition(group)[12] == '='
  {
  }

  /** Distinct group ids give distinct conditions. */
  lemma ConditionDeterminesGroup(g1: int, g2: int)
    requires GroupCondition(g1) == GroupCondition(g2)
    ensures g1 == g2
  {
    ConditionShape(g1);
    ConditionShape(g2);
    if g1 != Everything && g1 != Unsorted && g2 != Everything && g2 != Unsorted {
      DropCommonPrefix(EqualsPrefix, Itoa(g1), Itoa(g2));
      ItoaInjective(g1, g2);
    }
  }

  /** A clause is the cluster's number and the group condition, around one space. */
  lemma ClauseShape(cluster: int, group: int)
    ensures Clause(cluster, group) == "WHERE \"cluster\" = " + (Itoa(cluster) + [' '] + GroupCondition(group))
  {
    var lead, n, rest := "WHERE \"cluster\" = ", Itoa(cluster), GroupCondition(group);
    assert ClusterFilter(cluster) + rest == lead + (n + [' '] + rest);
  }

  /** A clause names exactly one request: distinct (cluster, group) pairs never share a filter. */
  lemma ClauseDeterminesRequest(c1: int, g1: int, c2: int, g2: int)
    requires Clause(c1, g1) == Clause(c2, g2)
    ensures c1 == c2 && g1 == g2
  {
    ClauseShape(c1, g1);
    ClauseShape(c2, g2);
    DropCommonPrefix("WHERE \"cluster\" = ", Itoa(c1) + [' '] + GroupCondition(g1), Itoa(c2) + [' '] + GroupCondition(g2));
    SplitAtSeparator(Itoa(c1), GroupCondition(g1), Itoa(c2), GroupCondition(g2), ' ');
    ItoaInjective(c1, c2);
    ConditionDeterminesGroup(g1, g2);
  }

  /** Example: the trash is filtered like any stored group, by equality on its id. */
  lemma TrashFilteredByEquality(cluster: int)
    ensures Clause(cluster, -2) == "WHERE \"cluster\" = " + Itoa(cluster) + " AND \"group\" = -2"
  {
  }
}
