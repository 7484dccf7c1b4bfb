/** Literal seed data: the four demo users and the five demo mood posts the
    application starts with. */
module SampleData {
  import opened Types

  const You: User := User("1", "You", "user@company.com", Some(""), Online,
                          "Development", "Senior Developer", None, None, "2024-01-15")
  const Sarah: User := User("2", "Sarah Johnson", "sarah.j@company.com", Some(""), Online,
                            "Design", "UX Designer", None, None, "2024-02-01")
  const Mike: User := User("3", "Mike Chen", "mike.c@company.com", Some(""), Away,
                           "Development", "Frontend Developer", None, None, "2024-03-10")
  const Emma: User := User("4", "Emma Wilson", "emma.w@company.com", Some(""), Busy,
                           "Marketing", "Marketing Manager", None, None, "2023-12-05")

  /** The demo posts, newest first, without ids or timestamps. */
  const SampleMoodEntries: seq<EntryPayload> := [
    EntryPayload("2", Sarah, Excited,
      Some("Just finished the new prototype! Can't wait to share it with the team \U{1F389}"),
      "general", Some([])),
    EntryPayload("3", Mike, Stressed,
      Some("Dealing with some challenging bugs today. Taking it one step at a time."),
      "stressed", Some([])),
    EntryPayload("4", Emma, Motivated,
      Some("Starting the day with coffee and clear goals. Let's make it happen! ☕"),
      "motivated", Some([])),
    EntryPayload("2", Sarah, Happy,
      Some("Beautiful weather today! Perfect for a walking meeting ☀️"),
      "happy", Some([])),
    EntryPayload("1", You, Content,
      Some("Good productive morning session. Ready for lunch break!"),
      "general", Some([]))
  ]
}
