/** A chat message: a role and its text, with its `{role, content}` JSON form. */
module Messages {
  import opened Wrappers
  import opened Json

  datatype Role = System | User | Assistant

  datatype Message = Message(role: Role, content: string)

  /** The wire name of a role; reading it back gives the same role. */
  function RoleToString(r: Role): (s: string)
    ensures s == "system" <==> r == System
    ensures s == "user" <==> r == User
    ensures s == "assistant" <==> r == Assistant
    ensures StringToRole(s) == r
  {
    match r
    case System => "system"
    case User => "user"
    case Assistant => "assistant"
  }

  /** The role a wire name denotes: "system" and "assistant" are recognised, anything else is User. */
  function StringToRole(s: string): (r: Role)
    ensures r == System <==> s == "system"
    ensures r == Assistant <==> s == "assistant"
    ensures r == User <==> s != "system" && s != "assistant"
  {
    if s == "system" then System
    else if s == "assistant" then Assistant
    else User
  }

  /** `Message::to_json`: an object with exactly the fields "role" and "content"; it decodes back to `m`. */
  function MessageToJson(m: Message): (j: Json)
    ensures j.JObj? && j.fields.Keys == {"role", "content"}
    ensures j.fields["role"] == JStr(RoleToString(m.role))
    ensures j.fields["content"] == JStr(m.content)
    ensures MessageFromJson(j) == Some(m)
  {
    JObj(map["role" := JStr(RoleToString(m.role)), "content" := JStr(m.content)])
  }

  /**
   * `Message::from_json`: reads the "role" and "content" strings. A value
   * that is not an object, lacks one of the two keys or holds a non-string
   * there makes the C++ code throw (or, for a missing key on a const object,
   * behave undefinedly); the model gives None for all of these.
   */
  function MessageFromJson(j: Json): (r: Option<Message>)
    ensures r.Some? <==> Contains(j, "role") && Contains(j, "content")
                         && j.fields["role"].JStr? && j.fields["content"].JStr?
    ensures r.Some? ==> r.value.role == StringToRole(j.fields["role"].s)
                        && r.value.content == j.fields["content"].s
  {
    if Contains(j, "role") && Contains(j, "content") && j.fields["role"].JStr? && j.fields["content"].JStr? then
      Some(Message(StringToRole(j.fields["role"].s), j.fields["content"].s))
    else None
  }

  /** An unknown role name decodes as a User message, keeping its content. */
  lemma UnknownRoleDecodesAsUser(name: string, content: string)
    requires name != "system" && name != "assistant"
    ensures MessageFromJson(JObj(map["role" := JStr(name), "content" := JStr(content)]))
            == Some(Message(User, content))
  {
  }
}
