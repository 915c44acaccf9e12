/** The day the pipeline asks the register for. The register appears at 11:00 UTC,
    so runs before hour 11 use the previous day. Days are ordinals; the hour is
    the one `now()` reports, which is the UTC hour only on a host set to UTC. */
module Schedule {

  const PublicationHour: nat := 11

  function ChosenDay(hour: nat, today: int): (day: int)
    ensures day == today - 1 || day == today
    ensures day == today - 1 <==> hour < PublicationHour
  {
    if hour < PublicationHour then today - 1 else today
  }
}
